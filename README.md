# Blog post generator — Dafny model

This project models `scripts/generate_post.py`, a small script that creates a
static-site blog post. It builds the post's file name from a date and the
title, and writes a Markdown file. The file starts with YAML front matter
(title, author, date, categories, tags). A fixed body with placeholder image
and link markers follows, with the post's content in the middle.

The model is pure, like the source:

- `Text` covers the Python string operations the script uses: ASCII
  `str.lower()`, one-character `str.replace`, removal of a character and
  `str.join`. It also defines `Split` (`str.split`), which the script does not
  call; the post reader below uses it. Joining the pieces of a split always
  gives the text back (`JoinSplit`). Splitting a join gives the items back
  when there is at least one item and no item holds the separator's first
  character (`SplitJoin`).
- `PyRepr` covers Python's `repr` of a `str` (choice of quote, escapes) and
  `str` of a list of strings. The script renders the category list with these.
- `GeneratePost` holds the script itself:
  - `Slug` and `GenerateFilename` model `generate_filename`;
  - `CategoriesText`, `Tags`, `FrontMatterLines`, `PostBody`, `Template` and
    `CreatePostFile` model `create_post_file`.
- `FrontMatter` is a line-based reader for posts: the `key: value` lines
  between two `---` lines, the body after them, and `[a, b]` lists. It skips
  blank lines before the opening `---`. The generated text opens with a line
  break, so a reader that needed `---` on the very first line would find no
  front matter in these posts. The script has no reader; this one is written
  separately from the generator. For a single-line title and timestamp,
  reading a generated post gives back its fields and body (`PostReadsBack`).

The script reads the clock twice: once for the file name date (`%Y-%m-%d`) and
once for the front-matter timestamp (`%Y-%m-%d %H:%M:%S`). Here these are two
independent string parameters, `date` and `timestamp`. No relation between
them is assumed, because the two readings can fall on different days.

Behaviour of the script worth knowing:

- The categories text is the Python list rendering with the single quotes
  removed.
  `["A", "B"]` gives `[A, B]` and tags `[a, b]`. The tags keep the brackets
  and the comma-and-space separators (`TwoCategoriesText`, `TwoCategoriesTags`).
- Different category lists can render alike. An empty name and an empty list
  both give `[]` (`EmptyCategoryLikeNone`). A name holding `, ` renders like
  two names (`CommaCategoryLikeTwo`).
- A name holding `'` and no `"` is quoted with `"` by Python's `repr`. Those
  double quotes stay in the text and the apostrophe is removed: `["it's"]`
  gives `["its"]` (`DoubleQuotedCategory`, `ApostropheCategory`). The categories and tags values read
  back as the original names (and their lowercase) when every name is plain
  and comma-free and the list is not `[""]` (`CategoriesReadBack`).
- The title is written into the front matter as it is. A title made of one
  line and then a `---` line closes the front matter early. The post reads
  back with a title field holding only the first line. The author, date,
  categories and tags lines and the closing `---` then come first in the body
  (`TitleClosesFrontMatter`, `MultiLineTitleExample`). The
  line-by-line results (`TemplateLines`, `PostReadsBack`) are therefore stated
  for a single-line title and timestamp.
- `create_post_file` takes a `path` argument but calls
  `generate_filename(title)` without it. The written file name therefore never
  carries the directory (`CreatePostIgnoresPath`).
- The template opens with a line break, so the written text begins with an
  empty line before the first `---` (`TemplateLines`).

## Model

| member | source | states |
|---|---|---|
| Text.LowerChar | scripts/generate_post.py:7 | each upper-case ASCII letter `A`–`Z` becomes the letter at the same place in `a`–`z`; a character is unchanged exactly when it is not an upper-case letter; the result is never upper-case; only a space maps to a space |
| Text.Lower | scripts/generate_post.py:12 | lowercasing keeps the length and lowercases every position |
| Text.LowerIdempotent | scripts/generate_post.py:12 | lowercasing twice is lowercasing once |
| Text.ReplaceChar | scripts/generate_post.py:7 | replacing one character keeps the length; every occurrence is replaced and every other position is kept |
| Text.RemoveChar | scripts/generate_post.py:11 | after removing a character it no longer occurs, nothing new appears, and a text without it is unchanged |
| Text.RemoveCharConcat | scripts/generate_post.py:11 | removing a character from a concatenation removes it from each part |
| Text.JoinSplit | scripts/generate_post.py:11 | `Join` is `sep.join`: joining the pieces of any split with the same separator gives the text back |
| Text.SplitJoin | scripts/generate_post.py:11 | `Join` is `sep.join`: splitting a join of at least one item gives the items back when no item holds the separator's first character |
| Text.LowerJoin | scripts/generate_post.py:11-12 | lowercasing joined items is joining the lowercased items with the lowercased separator |
| PyRepr.EscapeChar | scripts/generate_post.py:11 | repr's escape of a character never holds a line break, and it is the character itself exactly when the character needs no escape |
| PyRepr.QuoteFor | scripts/generate_post.py:11 | `repr` picks `'` unless the text holds `'` and no `"`; the quote picked does not occur in the text whenever one of the two quotes is absent |
| PyRepr.Escape | scripts/generate_post.py:11 | the escaped text is at least as long as the text, holds no line break, and is the text itself when every character passes through |
| PyRepr.StrRepr | scripts/generate_post.py:11 | repr of a string is quoted at both ends, holds no line break, and is the string between single quotes when the string is plain |
| PyRepr.ListRepr | scripts/generate_post.py:11 | str of a list of strings begins with `[` and ends with `]` |
| PyRepr.ListReprOneLine | scripts/generate_post.py:11 | str of a list of strings holds no line break |
| GeneratePost.Slug | scripts/generate_post.py:7 | the slug has the title's length; each space becomes `-`, every other character is lowercased; no space remains |
| GeneratePost.SlugIdempotent | scripts/generate_post.py:7 | slugging a slug changes nothing |
| GeneratePost.PathPrefix | scripts/generate_post.py:6 | no path gives no prefix; a path gives the path followed by `/` |
| GeneratePost.GenerateFilename | scripts/generate_post.py:5-7 | the file name is the optional `path/` prefix, the date, `-`, the slug of the title and `.md`, in that order and nothing else |
| GeneratePost.FilenameCollision | scripts/generate_post.py:7 | two titles give the same file name exactly when their slugs are equal |
| GeneratePost.FilenameCollisionExample | scripts/generate_post.py:7 | `A B` and `a-b` give the same file name, so one post overwrites the other |
| GeneratePost.EmptyPathIsRoot | scripts/generate_post.py:6 | an empty path still adds `/`, so the name starts at the file-system root |
| GeneratePost.CategoriesText | scripts/generate_post.py:11 | the categories text holds no single quote |
| GeneratePost.CategoriesTextShape | scripts/generate_post.py:11 | the categories text is `[`, the joined item reprs without quotes, `]` |
| GeneratePost.CategoriesTextOneLine | scripts/generate_post.py:11-12 | the categories text and the tags hold no line break, whatever the category names hold |
| GeneratePost.CategoriesTextPlain | scripts/generate_post.py:11 | for plain names the categories text is `[` + names joined by `, ` + `]` |
| GeneratePost.Tags | scripts/generate_post.py:12 | the tags have the categories text's length, are already lowercase, and hold no single quote |
| GeneratePost.TagsPlain | scripts/generate_post.py:12 | for plain names the tags are `[` + the lowercased names joined by `, ` + `]` |
| GeneratePost.TwoCategoriesText | scripts/generate_post.py:11 | `["A", "B"]` renders as `[A, B]` |
| GeneratePost.TwoCategoriesTags | scripts/generate_post.py:12 | `["A", "B"]` gives the tags `[a, b]` |
| GeneratePost.EmptyCategoryLikeNone | scripts/generate_post.py:11 | `[""]` and `[]` both render as `[]` |
| GeneratePost.DoubleQuotedCategory | scripts/generate_post.py:11 | for a name holding `'` and no `"`, backslash or control character, the categories text is `["`, the name without its apostrophes, `"]` |
| GeneratePost.ApostropheCategory | scripts/generate_post.py:11 | `["it's"]` gives the categories text `["its"]` |
| GeneratePost.CommaCategoryLikeTwo | scripts/generate_post.py:11 | `["a, b"]` renders like `["a", "b"]` |
| GeneratePost.FrontMatterLines | scripts/generate_post.py:14-21 | the front matter is eight lines: an empty line, `---`, five field lines, `---` |
| GeneratePost.PostBody | scripts/generate_post.py:22-32 | the body opens with a blank line, then the line `![img](imagen_post)`, an empty line, and the content on lines of its own |
| GeneratePost.Template | scripts/generate_post.py:14-32 | the template ends with the body; TemplateLines and PostReadsBack give it line by line and field by field |
| GeneratePost.FrontMatterSplit | scripts/generate_post.py:14-21 | with single-line values the front matter splits into exactly its eight lines, then the body's lines |
| GeneratePost.TemplateLines | scripts/generate_post.py:14-32 | for a single-line title and timestamp, line by line the post is an empty line, `---`, `title: <title>`, `author: Benjamin`, `date: <timestamp> -0500`, `categories: <text>`, `tags: <tags>`, `---`, then the body's lines |
| GeneratePost.FrontMatterFieldLines | scripts/generate_post.py:16-20 | the five front-matter lines are the `key: value` lines of title, author, date, categories and tags |
| GeneratePost.PostFieldKeys | scripts/generate_post.py:16-20 | no front-matter key holds a colon |
| GeneratePost.CreatePostFile | scripts/generate_post.py:10-35 | the file written is named by the title and date without any path, and holds the template |
| GeneratePost.CreatePostIgnoresPath | scripts/generate_post.py:10-33 | for every title and date the result does not depend on `path`; the file name has no `/` unless the title or date has one |
| GeneratePost.PostReadsBack | scripts/generate_post.py:14-32 | for a single-line title and timestamp, reading the written text back gives the fields title, author `Benjamin`, date with ` -0500`, categories and tags in that order, and the body with the content |
| GeneratePost.CategoriesReadBack | scripts/generate_post.py:11-20 | for plain, comma-free names, other than the single empty name, the categories and tags values read as lists give the names and the lowercased names |
| GeneratePost.TitleClosesFrontMatter | scripts/generate_post.py:14-32 | a title made of one line and then a `---` line reads back as a post whose only field is a title holding the first line; the body is the author, date, categories and tags lines, `---`, and then the post's own body |
| GeneratePost.MultiLineTitleExample | scripts/generate_post.py:14-21 | the title `x`, a line break and `---` reads back as the title `x` alone |

## Left out

- Clock readings: `datetime.now()` is not modelled; the file-name date and the front-matter timestamp are parameters.
- File I/O: the `open`/`write` of the template is not modelled; `CreatePostFile` returns the file name and the text that would be written, and silent overwriting is not modelled.
- The module-level demo call at the end of the script is not modelled; it only runs the generator once with fixed arguments.
- Text.LowerChar: lowercases only the ASCII letters `A`–`Z`, because Python's full Unicode case mapping is library behaviour outside the script.
- PyRepr.EscapeChar: escapes only ASCII control characters, DEL, the backslash and the chosen quote; non-ASCII characters are copied as they are, although Python escapes the non-printable ones (for example U+0085 as `\x85`), so `PassesThrough` is too wide for those characters.
- PyRepr.Escape: inherits the same ASCII-only escaping from `EscapeChar`.
- PyRepr.StrRepr: inherits the same ASCII-only escaping from `EscapeChar`.
- Category values that are not strings are not modelled: the script is only ever given a list of strings.
