/**
 * The post generator: the file name built from a date and a title, and the
 * post text built from a title, a timestamp, a category list and the body
 * content. The two clock readings of the program are parameters here.
 */
module GeneratePost {
  import opened Wrappers
  import opened Text
  import opened PyRepr
  import FrontMatter

  /** The title as it appears in the file name: lowercased, spaces turned into `-`. */
  function Slug(title: string): (r: string)
    ensures |r| == |title|
    ensures forall i :: 0 <= i < |title| ==> r[i] == if title[i] == ' ' then '-' else LowerChar(title[i])
    ensures ' ' !in r
  {
    ReplaceChar(Lower(title), ' ', '-')
  }

  lemma SlugIdempotent(title: string)
    ensures Slug(Slug(title)) == Slug(title)
  {
  }

  /** The directory part of the file name: `path + '/'` when a path is given, nothing otherwise. */
  function PathPrefix(path: Option<string>): (r: string)
    ensures path.None? <==> r == ""
    ensures path.Some? ==> r[..|r| - 1] == path.value && r[|r| - 1] == '/'
  {
    if path.Some? then path.value + "/" else ""
  }

  /**
   * `generate_filename(title, path)`, with `date` the `%Y-%m-%d` rendering of
   * the clock: `{path/}{date}-{slug}.md`.
   */
  function GenerateFilename(title: string, path: Option<string>, date: string): (r: string)
    ensures var n := |PathPrefix(path)|;
      && |r| == n + |date| + |title| + 4
      && r[..n] == PathPrefix(path)
      && r[n..n + |date|] == date
      && r[n + |date|] == '-'
      && r[n + |date| + 1..|r| - 3] == Slug(title)
      && r[|r| - 3..] == ".md"
  {
    PathPrefix(path) + date + "-" + Slug(title) + ".md"
  }

  /** Two titles give the same file name exactly when their slugs agree. */
  lemma FilenameCollision(t1: string, t2: string, path: Option<string>, date: string)
    ensures GenerateFilename(t1, path, date) == GenerateFilename(t2, path, date) <==> Slug(t1) == Slug(t2)
  {
  }

  /** Titles that differ only in case and in spaces versus hyphens overwrite each other's file. */
  lemma FilenameCollisionExample(date: string)
    ensures GenerateFilename("A B", None, date) == GenerateFilename("a-b", None, date)
  {
  }

  /** An empty path still contributes its `/`: the file lands at the file-system root. */
  lemma EmptyPathIsRoot(title: string, date: string)
    ensures GenerateFilename(title, Some(""), date)[0] == '/'
  {
  }

  /** `str(categories).replace("'", "")`. */
  function CategoriesText(categories: seq<string>): (r: string)
    ensures '\'' !in r
  {
    RemoveChar(ListRepr(categories), '\'')
  }

  /** The brackets of the list survive the quote removal; only the inside loses its quotes. */
  lemma CategoriesTextShape(categories: seq<string>)
    ensures CategoriesText(categories) == "[" + RemoveChar(Join(Reprs(categories), ", "), '\'') + "]"
  {
    var inner := Join(Reprs(categories), ", ");
    RemoveCharConcat("[" + inner, "]", '\'');
    RemoveCharConcat("[", inner, '\'');
  }

  /** The category text and the tags are single lines: every `repr` escapes line breaks. */
  lemma CategoriesTextOneLine(categories: seq<string>)
    ensures '\n' !in CategoriesText(categories)
    ensures '\n' !in Tags(categories)
  {
    ListReprOneLine(categories);
    var t := Tags(categories);
    assert forall i :: 0 <= i < |t| ==> t[i] != '\n';
  }

  /** Removing the quotes of the `repr`s of plain items leaves the items joined. */
  lemma {:induction false} UnquotedReprs(items: seq<string>)
    requires forall i :: 0 <= i < |items| ==> Plain(items[i])
    ensures RemoveChar(Join(Reprs(items), ", "), '\'') == Join(items, ", ")
  {
    if |items| >= 1 {
      var r0 := StrRepr(items[0]);
      assert RemoveChar(r0, '\'') == items[0] by {
        assert r0 == "'" + items[0] + "'";
        assert '\'' !in items[0];
        RemoveCharConcat("'" + items[0], "'", '\'');
        RemoveCharConcat("'", items[0], '\'');
      }
      if |items| >= 2 {
        var rest := Join(Reprs(items)[1..], ", ");
        assert RemoveChar(rest, '\'') == Join(items[1..], ", ") by {
          assert Reprs(items)[1..] == Reprs(items[1..]);
          UnquotedReprs(items[1..]);
        }
        RemoveCharConcat(r0 + ", ", rest, '\'');
        RemoveCharConcat(r0, ", ", '\'');
      }
    }
  }

  /** For plain category names the text is `[` + the names joined by `", "` + `]`. */
  lemma CategoriesTextPlain(categories: seq<string>)
    requires forall i :: 0 <= i < |categories| ==> Plain(categories[i])
    ensures CategoriesText(categories) == "[" + Join(categories, ", ") + "]"
  {
    CategoriesTextShape(categories);
    UnquotedReprs(categories);
  }

  /** `categories_text.lower()`. */
  function Tags(categories: seq<string>): (r: string)
    ensures |r| == |CategoriesText(categories)|
    ensures Lower(r) == r
    ensures '\'' !in r
  {
    Lower(CategoriesText(categories))
  }

  /** For plain category names the tags are the lowercased names, bracketed and joined like the categories. */
  lemma TagsPlain(categories: seq<string>)
    requires forall i :: 0 <= i < |categories| ==> Plain(categories[i])
    ensures Tags(categories) == "[" + Join(LowerAll(categories), ", ") + "]"
  {
    var inner := Join(categories, ", ");
    calc {
      Tags(categories);
      Lower(CategoriesText(categories));
    == { CategoriesTextPlain(categories); }
      Lower("[" + inner + "]");
    == { LowerConcat("[" + inner, "]"); LowerConcat("[", inner); }
      Lower("[") + Lower(inner) + Lower("]");
    == { LowerJoin(categories, ", "); assert Lower(", ") == ", "; }
      "[" + Join(LowerAll(categories), ", ") + "]";
    }
  }

  /** The placeholder image line that opens the body. */
  const ImageMarker := "![img](imagen_post)"

  /** Everything after the content: repository link, meme line and meme image. */
  const Footer := "\n## [Github repository](url_repositorio)\n\nMeme de cortes\U{ed}a\n\n![meme](imagen_meme)\n    "

  /**
   * The text that follows the closing `---` line: image marker, content,
   * repository link and meme. It opens with a blank line, the image marker
   * has a line of its own, and so does the content.
   */
  function PostBody(content: string): (r: string)
    ensures |r| > 22 + |content|
    ensures r[0] == '\n' && r[1..20] == ImageMarker && r[20] == '\n' && r[21] == '\n'
    ensures r[22..22 + |content|] == content
    ensures r[22 + |content|] == '\n'
  {
    assert |ImageMarker| == 19;
    "\n" + ImageMarker + "\n\n" + content + "\n" + Footer
  }

  /**
   * The lines of the template up to the closing `---`: an empty line (the
   * template opens with a line break), `---`, the five fields, `---`.
   */
  function FrontMatterLines(title: string, timestamp: string, categoriesText: string, tags: string): (r: seq<string>)
    ensures |r| == 8 && r[0] == "" && r[1] == "---" && r[7] == "---"
  {
    ["", "---", "title: " + title, "author: Benjamin", "date: " + timestamp + " -0500",
     "categories: " + categoriesText, "tags: " + tags, "---"]
  }

  /** The post text: the front-matter lines, each ended by a line break, then the body. */
  function Template(title: string, timestamp: string, categories: seq<string>, content: string): (r: string)
    ensures |r| > |PostBody(content)| && r[|r| - |PostBody(content)|..] == PostBody(content)
  {
    var front := Join(FrontMatterLines(title, timestamp, CategoriesText(categories), Tags(categories)), "\n") + "\n";
    var body := PostBody(content);
    assert (front + body)[|front|..] == body;
    front + body
  }

  /** Single-line field values keep the front matter to one line per field. */
  lemma FrontMatterSplit(title: string, timestamp: string, categoriesText: string, tags: string, body: string)
    requires '\n' !in title && '\n' !in timestamp && '\n' !in categoriesText && '\n' !in tags
    ensures Split(Join(FrontMatterLines(title, timestamp, categoriesText, tags), "\n") + "\n" + body, "\n")
         == FrontMatterLines(title, timestamp, categoriesText, tags) + Split(body, "\n")
  {
    var l := FrontMatterLines(title, timestamp, categoriesText, tags);
    assert '\n' !in l[2] && '\n' !in l[4];
    assert '\n' !in l[5] && '\n' !in l[6];
    SplitJoinThen(l, "\n", body);
  }

  /** Line by line, the post is the front matter followed by the lines of the body. */
  lemma TemplateLines(title: string, timestamp: string, categories: seq<string>, content: string)
    requires '\n' !in title && '\n' !in timestamp
    ensures Split(Template(title, timestamp, categories, content), "\n")
         == FrontMatterLines(title, timestamp, CategoriesText(categories), Tags(categories))
            + Split(PostBody(content), "\n")
  {
    CategoriesTextOneLine(categories);
    FrontMatterSplit(title, timestamp, CategoriesText(categories), Tags(categories), PostBody(content));
  }

  /** The written file: where it goes and what it holds. */
  datatype PostFile = PostFile(filename: string, text: string)

  /**
   * `create_post_file(title, categories, content, path)`, with `date` and
   * `timestamp` the two clock readings. The `path` argument is never passed
   * on: the file name is the one built without a path.
   */
  function CreatePostFile(title: string, categories: seq<string>, content: string, path: Option<string>,
                          date: string, timestamp: string): (p: PostFile)
    ensures p.filename == GenerateFilename(title, None, date)
    ensures p.text == Template(title, timestamp, categories, content)
  {
    PostFile(GenerateFilename(title, None, date), Template(title, timestamp, categories, content))
  }

  /** Whatever path is passed, the written file name has no directory in it unless the title or date does. */
  lemma CreatePostIgnoresPath(title: string, categories: seq<string>, content: string, path: Option<string>,
                              date: string, timestamp: string)
    ensures '/' !in title && '/' !in date
            ==> '/' !in CreatePostFile(title, categories, content, path, date, timestamp).filename
    ensures CreatePostFile(title, categories, content, path, date, timestamp)
         == CreatePostFile(title, categories, content, None, date, timestamp)
  {
    if '/' !in title && '/' !in date {
      assert '/' !in Slug(title) by {
        assert forall i :: 0 <= i < |title| ==> Slug(title)[i] != '/';
      }
      assert '/' !in GenerateFilename(title, None, date) by {
        assert GenerateFilename(title, None, date) == date + "-" + Slug(title) + ".md";
      }
    }
  }

  /** The front-matter fields of a post, in the order the template writes them. */
  function PostFields(title: string, timestamp: string, categoriesText: string, tags: string): seq<FrontMatter.Field>
  {
    [FrontMatter.Field("title", title),
     FrontMatter.Field("author", "Benjamin"),
     FrontMatter.Field("date", timestamp + " -0500"),
     FrontMatter.Field("categories", categoriesText),
     FrontMatter.Field("tags", tags)]
  }

  /** No field name holds a colon, so every field line splits at the `": "` after its name. */
  lemma PostFieldKeys(title: string, timestamp: string, categoriesText: string, tags: string)
    ensures forall i :: 0 <= i < |PostFields(title, timestamp, categoriesText, tags)|
              ==> ':' !in PostFields(title, timestamp, categoriesText, tags)[i].key
  {
  }

  /** The front-matter lines are the field lines of the post's fields between `---` lines. */
  lemma FrontMatterFieldLines(title: string, timestamp: string, categoriesText: string, tags: string)
    ensures FrontMatterLines(title, timestamp, categoriesText, tags)
         == ["", "---"] + FrontMatter.FieldLines(PostFields(title, timestamp, categoriesText, tags)) + ["---"]
  {
    var lines := FrontMatter.FieldLines(PostFields(title, timestamp, categoriesText, tags));
    assert lines[0] == "title: " + title by { assert "title" + ": " == "title: "; }
    assert lines[1] == "author: Benjamin" by { assert "author" + ": " == "author: "; }
    assert lines[2] == "date: " + timestamp + " -0500" by { assert "date" + ": " == "date: "; }
    assert lines[3] == "categories: " + categoriesText by { assert "categories" + ": " == "categories: "; }
    assert lines[4] == "tags: " + tags by { assert "tags" + ": " == "tags: "; }
  }

  /**
   * Read back by the front-matter reader, the post gives the title, author,
   * date, categories and tags fields in that order, and the body with the content.
   */
  lemma PostReadsBack(title: string, categories: seq<string>, content: string, path: Option<string>,
                      date: string, timestamp: string)
    requires '\n' !in title && '\n' !in timestamp
    ensures FrontMatter.ReadPost(CreatePostFile(title, categories, content, path, date, timestamp).text)
         == Some(FrontMatter.Post(
              [FrontMatter.Field("title", title),
               FrontMatter.Field("author", "Benjamin"),
               FrontMatter.Field("date", timestamp + " -0500"),
               FrontMatter.Field("categories", CategoriesText(categories)),
               FrontMatter.Field("tags", Tags(categories))],
              PostBody(content)))
  {
    var ct, tg := CategoriesText(categories), Tags(categories);
    var text := Template(title, timestamp, categories, content);
    var fields := PostFields(title, timestamp, ct, tg);
    var body := Split(PostBody(content), "\n");
    calc {
      Split(text, "\n");
    == { TemplateLines(title, timestamp, categories, content); }
      FrontMatterLines(title, timestamp, ct, tg) + body;
    == { FrontMatterFieldLines(title, timestamp, ct, tg); }
      ["", "---"] + FrontMatter.FieldLines(fields) + ["---"] + body;
    }
    PostFieldKeys(title, timestamp, ct, tg);
    FrontMatter.ReadPostLines(text, fields, PostBody(content));
  }

  /**
   * For plain, comma-free category names, the `categories` and `tags` values
   * read back as flow lists give the names and the lowercased names.
   */
  lemma CategoriesReadBack(categories: seq<string>)
    requires forall i :: 0 <= i < |categories| ==> Plain(categories[i]) && ',' !in categories[i]
    requires categories != [""]
    ensures FrontMatter.ReadFlowList(CategoriesText(categories)) == Some(categories)
    ensures FrontMatter.ReadFlowList(Tags(categories)) == Some(LowerAll(categories))
  {
    CategoriesTextPlain(categories);
    FrontMatter.FlowListRoundTrip(categories);
    TagsPlain(categories);
    var lowered := LowerAll(categories);
    forall i | 0 <= i < |lowered| ensures ',' !in lowered[i] {
      assert forall j :: 0 <= j < |categories[i]| ==> lowered[i][j] != ',';
    }
    FrontMatter.FlowListRoundTrip(lowered);
  }

  /**
   * Two categories render as a bracketed list separated by a comma and a
   * space, not as a bare comma-separated list.
   */
  lemma TwoCategoriesText()
    ensures CategoriesText(["A", "B"]) == "[A, B]"
  {
    var cats := ["A", "B"];
    calc {
      CategoriesText(cats);
    == { assert Plain(cats[0]) && Plain(cats[1]); CategoriesTextPlain(cats); }
      "[" + Join(cats, ", ") + "]";
    == { assert cats[1..] == ["B"]; }
      "[" + ("A" + ", " + "B") + "]";
    ==
      "[A, B]";
    }
  }

  /** The tags of two categories are the lowercase of their bracketed list. */
  lemma TwoCategoriesTags()
    ensures Tags(["A", "B"]) == "[a, b]"
  {
    var cats := ["A", "B"];
    var lowered := LowerAll(cats);
    assert lowered == ["a", "b"] by {
      assert Lower("A") == "a" by {
        assert Lower("A")[0] == LowerChar('A') == 'a';
      }
      assert Lower("B") == "b" by {
        assert Lower("B")[0] == LowerChar('B') == 'b';
      }
    }
    calc {
      Tags(cats);
    == { assert Plain(cats[0]) && Plain(cats[1]); TagsPlain(cats); }
      "[" + Join(lowered, ", ") + "]";
    == { assert lowered[1..] == ["b"]; }
      "[" + ("a" + ", " + "b") + "]";
    ==
      "[a, b]";
    }
  }

  /** An empty category and no category at all render alike: both give `[]`. */
  lemma EmptyCategoryLikeNone()
    ensures CategoriesText([""]) == CategoriesText([]) == "[]"
  {
    assert Plain("");
    CategoriesTextPlain([""]);
    CategoriesTextPlain([]);
  }

  /**
   * A name holding `'` and no `"` (nor a backslash or control character) is
   * quoted with `"` by `repr`. Only the single quotes are removed, so the
   * double quotes stay and the apostrophes go.
   */
  lemma DoubleQuotedCategory(name: string)
    requires '\'' in name && '"' !in name
    requires forall i :: 0 <= i < |name| ==> PassesThrough(name[i], '"')
    ensures CategoriesText([name]) == "[" + ("\"" + RemoveChar(name, '\'') + "\"") + "]"
  {
    var cats := [name];
    var q := "\"";
    assert StrRepr(name) == q + name + q;
    calc {
      CategoriesText(cats);
    == { CategoriesTextShape(cats); }
      "[" + RemoveChar(Join(Reprs(cats), ", "), '\'') + "]";
    == { assert Join(Reprs(cats), ", ") == StrRepr(name); }
      "[" + RemoveChar(q + name + q, '\'') + "]";
    == { RemoveCharConcat(q + name, q, '\''); RemoveCharConcat(q, name, '\''); }
      "[" + (q + RemoveChar(name, '\'') + q) + "]";
    }
  }

  /** `["it's"]` gives the categories text `["its"]`. */
  lemma ApostropheCategory()
    ensures CategoriesText(["it's"]) == "[\"its\"]"
  {
    assert "[" + ("\"" + "its" + "\"") + "]" == "[\"its\"]";
    var name := "it's";
    assert RemoveChar(name, '\'') == "its" by {
      assert name == "it" + "'s";
      RemoveCharConcat("it", "'s", '\'');
      assert RemoveChar("it", '\'') == "it";
      assert RemoveChar("'s", '\'') == "s" by {
        var t := "'s";
        assert t[0] == '\'' && t[1..] == "s";
        assert '\'' !in "s";
      }
    }
    assert CategoriesText([name]) == "[" + ("\"" + RemoveChar(name, '\'') + "\"") + "]" by {
      assert name[2] == '\'' && '"' !in name;
      assert forall i :: 0 <= i < |name| ==> PassesThrough(name[i], '"');
      DoubleQuotedCategory(name);
    }
  }

  /** A name holding `", "` renders like two names. */
  lemma CommaCategoryLikeTwo()
    ensures CategoriesText(["a, b"]) == CategoriesText(["a", "b"])
  {
    var one, two := ["a, b"], ["a", "b"];
    calc {
      CategoriesText(one);
    == { assert Plain(one[0]); CategoriesTextPlain(one); }
      "[" + Join(one, ", ") + "]";
    ==
      "[" + ("a" + ", " + "b") + "]";
    == { assert two[1..] == ["b"]; }
      "[" + Join(two, ", ") + "]";
    == { assert Plain(two[0]) && Plain(two[1]); CategoriesTextPlain(two); }
      CategoriesText(two);
    }
  }

  /** Joined lines whose first is empty and whose third ends with a separator and the second line again. */
  lemma JoinRepeatsSecond(l: seq<string>, line: string, body: string, sep: string, close: string)
    requires |l| >= 4 && l[0] == "" && l[1] == close && l[2] == line + sep + close
    ensures Join(l, sep) + sep + body
         == "" + sep + close + sep + (line + sep + close) + sep + (Join(l[3..], sep) + sep + body)
  {
    var a := Join(l[3..], sep);
    assert Join(l[2..], sep) == l[2] + sep + a by {
      assert l[2..][0] == l[2] && l[2..][1..] == l[3..];
    }
    assert Join(l[1..], sep) == l[1] + sep + Join(l[2..], sep) by {
      assert l[1..][0] == l[1] && l[1..][1..] == l[2..];
    }
    assert Join(l, sep) == "" + sep + (close + sep + ((line + sep + close) + sep + a));
  }

  /** The front matter of a title made of one line and then a `---` line, read back with whatever body follows. */
  lemma FrontMatterTitleBreak(first: string, timestamp: string, categoriesText: string, tags: string, body: string)
    requires '\n' !in first
    ensures var post := FrontMatter.ReadPost(
              Join(FrontMatterLines(first + "\n---", timestamp, categoriesText, tags), "\n") + "\n" + body);
      && post.Some? && post.value.fields == [FrontMatter.Field("title", first)]
      && post.value.body
         == Join(FrontMatterLines(first + "\n---", timestamp, categoriesText, tags)[3..], "\n") + "\n" + body
  {
    var l := FrontMatterLines(first + "\n---", timestamp, categoriesText, tags);
    var line := "title" + ": " + first;
    assert l[2] == line + "\n" + "---" by {
      assert l[2] == "title: " + (first + "\n---");
      assert "title: " == "title" + ": " && "\n---" == "\n" + "---";
    }
    JoinRepeatsSecond(l, line, body, "\n", "---");
    assert ':' !in "title";
    FrontMatter.ReadPostOneField("title", first, Join(l[3..], "\n") + "\n" + body);
  }

  /**
   * A title made of one line and then a `---` line closes the front matter
   * early: the post reads back with a title field holding only the first
   * line, and the author, date, categories and tags lines and the closing
   * `---` fall into the body, ahead of the post's own body.
   */
  lemma TitleClosesFrontMatter(first: string, timestamp: string, categories: seq<string>, content: string)
    requires '\n' !in first
    ensures var post := FrontMatter.ReadPost(Template(first + "\n---", timestamp, categories, content));
      && post.Some? && post.value.fields == [FrontMatter.Field("title", first)]
      && post.value.body
         == Join(["author: Benjamin", "date: " + timestamp + " -0500", "categories: " + CategoriesText(categories),
                  "tags: " + Tags(categories), "---"], "\n") + "\n" + PostBody(content)
  {
    var ct, tg := CategoriesText(categories), Tags(categories);
    FrontMatterTitleBreak(first, timestamp, ct, tg, PostBody(content));
    assert FrontMatterLines(first + "\n---", timestamp, ct, tg)[3..]
        == ["author: Benjamin", "date: " + timestamp + " -0500", "categories: " + ct, "tags: " + tg, "---"];
  }

  /** The title `x` followed by a `---` line: the post reads back with the title `x` alone. */
  lemma MultiLineTitleExample(timestamp: string, categories: seq<string>, content: string)
    ensures var post := FrontMatter.ReadPost(Template("x\n---", timestamp, categories, content));
      post.Some? && post.value.fields == [FrontMatter.Field("title", "x")]
  {
    assert "x" + "\n---" == "x\n---";
    TitleClosesFrontMatter("x", timestamp, categories, content);
  }
}
