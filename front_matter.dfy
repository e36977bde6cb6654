/**
 * A line-based reader for the posts the generator writes: the `key: value`
 * lines between two `---` lines, the text after them, and `[a, b]` flow
 * lists. Blank lines before the opening `---` are skipped. For a single-line
 * title and timestamp, reading a generated post with it gives back the post's
 * fields and body (`GeneratePost.PostReadsBack`).
 */
module FrontMatter {
  import opened Wrappers
  import opened Text

  datatype Field = Field(key: string, value: string)

  /** A parsed post: its front-matter fields in order and the text after the closing `---` line. */
  datatype Post = Post(fields: seq<Field>, body: string)

  predicate SeparatorAt(line: string, i: nat) { i + 2 <= |line| && line[i] == ':' && line[i + 1] == ' ' }

  /** Splits a line at its first `": "`. */
  function ReadField(line: string): (f: Option<Field>)
    ensures f.Some? ==> line == f.value.key + ": " + f.value.value
    ensures f.Some? ==> forall i :: 0 <= i < |f.value.key| ==> !SeparatorAt(line, i)
    ensures f.None? <==> forall i :: 0 <= i < |line| ==> !SeparatorAt(line, i)
    decreases |line|
  {
    if |line| < 2 then None
    else if line[..2] == ": " then
      assert SeparatorAt(line, 0);
      Some(Field("", line[2..]))
    else
      assert forall i :: 0 <= i < |line| - 1 ==> SeparatorAt(line[1..], i) == SeparatorAt(line, i + 1);
      assert forall i :: 1 <= i < |line| ==> SeparatorAt(line, i) == SeparatorAt(line[1..], i - 1);
      assert !SeparatorAt(line, 0);
      match ReadField(line[1..])
      case None => None
      case Some(f) => Some(Field([line[0]] + f.key, f.value))
  }

  /** A key without a colon is read back from its line, whatever the value holds. */
  lemma {:induction false} ReadFieldLine(key: string, value: string)
    requires ':' !in key
    ensures ReadField(key + ": " + value) == Some(Field(key, value))
    ensures key + ": " + value != "---"
  {
    assert (key + ": " + value)[|key|] == ':';
    var line := key + ": " + value;
    if key == [] {
      assert line[..2] == ": " && line[2..] == value;
    } else {
      assert line[0] == key[0] && line[..2] != ": ";
      assert line[1..] == key[1..] + ": " + value;
      ReadFieldLine(key[1..], value);
      assert [key[0]] + key[1..] == key;
    }
  }

  /**
   * Reads field lines up to the first `---` line; gives the fields and the
   * index of that line.
   */
  function ReadFields(lines: seq<string>): (r: Option<(seq<Field>, nat)>)
    ensures r.Some? ==> r.value.1 < |lines| && lines[r.value.1] == "---"
    ensures r.Some? ==> |r.value.0| == r.value.1
  {
    if lines == [] then None
    else if lines[0] == "---" then Some(([], 0))
    else match ReadField(lines[0])
      case None => None
      case Some(f) =>
        match ReadFields(lines[1..])
        case None => None
        case Some((fs, n)) => Some(([f] + fs, n + 1))
  }

  /** The number of empty lines at the start. */
  function LeadingBlank(lines: seq<string>): (k: nat)
    ensures k <= |lines|
    ensures forall i :: 0 <= i < k ==> lines[i] == ""
    ensures k < |lines| ==> lines[k] != ""
  {
    if lines != [] && lines[0] == "" then 1 + LeadingBlank(lines[1..]) else 0
  }

  /**
   * Reads a post: after any blank lines, a `---` line, field lines, a closing
   * `---` line, then the body.
   */
  function ReadPost(doc: string): Option<Post>
  {
    var lines := Split(doc, "\n");
    var k := LeadingBlank(lines);
    if k < |lines| && lines[k] == "---" then
      match ReadFields(lines[k + 1..])
      case None => None
      case Some((fs, n)) => Some(Post(fs, Join(lines[k + n + 2..], "\n")))
    else None
  }

  /** The `key: value` line of each field. */
  function FieldLines(fields: seq<Field>): (r: seq<string>)
    ensures |r| == |fields|
    ensures forall i :: 0 <= i < |fields| ==> r[i] == fields[i].key + ": " + fields[i].value
  {
    seq(|fields|, i requires 0 <= i < |fields| => fields[i].key + ": " + fields[i].value)
  }

  lemma ReadFieldsStep(lines: seq<string>, f: Field, fs: seq<Field>, n: nat)
    requires lines != [] && lines[0] != "---" && ReadField(lines[0]) == Some(f)
    requires ReadFields(lines[1..]) == Some((fs, n))
    ensures ReadFields(lines) == Some(([f] + fs, n + 1))
  {
  }

  /** Field lines with colon-free keys, closed by `---`, read back as the fields. */
  lemma {:induction false} ReadFieldLines(fields: seq<Field>, rest: seq<string>)
    requires forall i :: 0 <= i < |fields| ==> ':' !in fields[i].key
    ensures ReadFields(FieldLines(fields) + ["---"] + rest) == Some((fields, |fields|))
  {
    var lines := FieldLines(fields) + ["---"] + rest;
    if fields != [] {
      var f := fields[0];
      assert lines[0] != "---" && ReadField(lines[0]) == Some(f) by {
        assert lines[0] == f.key + ": " + f.value;
        ReadFieldLine(f.key, f.value);
      }
      assert ReadFields(lines[1..]) == Some((fields[1..], |fields| - 1)) by {
        assert lines[1..] == FieldLines(fields[1..]) + ["---"] + rest;
        ReadFieldLines(fields[1..], rest);
      }
      ReadFieldsStep(lines, f, fields[1..], |fields| - 1);
      assert [f] + fields[1..] == fields;
    } else {
      assert lines[0] == "---";
    }
  }

  lemma ReadPostAfterBlankLine(doc: string, fields: seq<Field>, n: nat)
    requires |Split(doc, "\n")| >= 2 && Split(doc, "\n")[0] == "" && Split(doc, "\n")[1] == "---"
    requires ReadFields(Split(doc, "\n")[2..]) == Some((fields, n))
    ensures ReadPost(doc) == Some(Post(fields, Join(Split(doc, "\n")[n + 3..], "\n")))
  {
  }

  /**
   * A document whose lines are a blank line, `---`, the field lines, `---`
   * and the lines of a body reads back as those fields and that body.
   */
  lemma ReadPostLines(doc: string, fields: seq<Field>, body: string)
    requires forall i :: 0 <= i < |fields| ==> ':' !in fields[i].key
    requires Split(doc, "\n") == ["", "---"] + FieldLines(fields) + ["---"] + Split(body, "\n")
    ensures ReadPost(doc) == Some(Post(fields, body))
  {
    var lines := Split(doc, "\n");
    var rest := Split(body, "\n");
    var n := |fields|;
    assert ReadFields(lines[2..]) == Some((fields, n)) by {
      assert lines[2..] == FieldLines(fields) + ["---"] + rest;
      ReadFieldLines(fields, rest);
    }
    assert Join(lines[n + 3..], "\n") == body by {
      assert lines[n + 3..] == rest;
      JoinSplit(body, "\n");
    }
    ReadPostAfterBlankLine(doc, fields, n);
  }

  /** The lines of a front matter holding one line, then the lines of what follows. */
  lemma SplitOneLine(line: string, rest: string)
    requires '\n' !in line
    ensures Split("" + "\n" + "---" + "\n" + (line + "\n" + "---") + "\n" + rest, "\n")
         == ["", "---", line, "---"] + Split(rest, "\n")
  {
    var x3 := "---" + "\n" + rest;
    var x2 := line + "\n" + x3;
    var x1 := "---" + "\n" + x2;
    calc {
      Split("" + "\n" + "---" + "\n" + (line + "\n" + "---") + "\n" + rest, "\n");
    == { assert "" + "\n" + "---" + "\n" + (line + "\n" + "---") + "\n" + rest == "" + "\n" + x1; }
      Split("" + "\n" + x1, "\n");
    == { SplitAfter("", "\n", x1); }
      [""] + Split(x1, "\n");
    == { SplitAfter("---", "\n", x2); }
      [""] + (["---"] + Split(x2, "\n"));
    == { SplitAfter(line, "\n", x3); }
      [""] + (["---"] + ([line] + Split(x3, "\n")));
    == { SplitAfter("---", "\n", rest); }
      [""] + (["---"] + ([line] + (["---"] + Split(rest, "\n"))));
    ==
      ["", "---", line, "---"] + Split(rest, "\n");
    }
  }

  /** One field line followed by `---` reads as that one field. */
  lemma ReadOneField(key: string, value: string, tail: seq<string>)
    requires ':' !in key
    ensures ReadFields([key + ": " + value, "---"] + tail) == Some(([Field(key, value)], 1))
  {
    var lines := [key + ": " + value, "---"] + tail;
    ReadFieldLine(key, value);
    assert lines[0] == key + ": " + value;
    assert ReadFields(lines[1..]) == Some(([], 0)) by {
      assert lines[1..] != [] && lines[1..][0] == "---";
    }
    ReadFieldsStep(lines, Field(key, value), [], 0);
    assert [Field(key, value)] + [] == [Field(key, value)];
  }

  /**
   * A document whose front matter holds one field line, whatever follows the
   * closing `---`, reads back as that one field and the rest as the body.
   */
  lemma ReadPostOneField(key: string, value: string, rest: string)
    requires ':' !in key && '\n' !in key && '\n' !in value
    ensures ReadPost("" + "\n" + "---" + "\n" + ((key + ": " + value) + "\n" + "---") + "\n" + rest)
         == Some(Post([Field(key, value)], rest))
  {
    var line := key + ": " + value;
    var doc := "" + "\n" + "---" + "\n" + (line + "\n" + "---") + "\n" + rest;
    var tail := Split(rest, "\n");
    assert '\n' !in line;
    SplitOneLine(line, rest);
    assert ReadFields(Split(doc, "\n")[2..]) == Some(([Field(key, value)], 1)) by {
      assert Split(doc, "\n")[2..] == [line, "---"] + tail;
      ReadOneField(key, value, tail);
    }
    assert Join(Split(doc, "\n")[4..], "\n") == rest by {
      assert Split(doc, "\n")[4..] == tail;
      JoinSplit(rest, "\n");
    }
    ReadPostAfterBlankLine(doc, [Field(key, value)], 1);
  }

  /** Reads a `[a, b, c]` flow list; `[]` is the empty list. */
  function ReadFlowList(v: string): Option<seq<string>>
  {
    if |v| >= 2 && v[0] == '[' && v[|v| - 1] == ']' then
      var inner := v[1..|v| - 1];
      if inner == "" then Some([]) else Some(Split(inner, ", "))
    else None
  }

  /** A list written as `[` + items joined by `", "` + `]` reads back as the items. */
  lemma FlowListRoundTrip(items: seq<string>)
    requires forall i :: 0 <= i < |items| ==> ',' !in items[i]
    requires items != [""]
    ensures ReadFlowList("[" + Join(items, ", ") + "]") == Some(items)
  {
    var v := "[" + Join(items, ", ") + "]";
    assert v[1..|v| - 1] == Join(items, ", ");
    if |items| >= 1 {
      SplitJoin(items, ", ");
      if |items| >= 2 {
        assert |Join(items, ", ")| > 0;
      }
    }
  }
}
