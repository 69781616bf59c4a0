/** The human-readable description of an update (src/api/utils/string_makers.py). */
module StringMakers {
  import opened Wrappers
  import opened Text
  import opened Schemas

  const TitleLabel := "Тема: "
  const UserLabel := "Пользователь: "
  const DateLabel := "Дата: "
  const PreviewLabel := "Содержание: "

  /** `make_description`: four labelled lines — topic, author, date, content. */
  function MakeDescription(info: UpdateInfo): (r: string)
    ensures StartsWith(r, TitleLabel + info.title + "\n")
    ensures |r| >= |PreviewLabel + info.preview| && r[|r| - |PreviewLabel + info.preview|..] == PreviewLabel + info.preview
    ensures |r| == |TitleLabel| + |UserLabel| + |DateLabel| + |PreviewLabel| + 3
                   + |info.title| + |info.userName| + |info.creationDate| + |info.preview|
  {
    var r := TitleLabel + info.title + "\n" + UserLabel + info.userName + "\n" + DateLabel + info.creationDate
             + "\n" + PreviewLabel + info.preview;
    assert r[..|TitleLabel + info.title + "\n"|] == TitleLabel + info.title + "\n";
    r
  }

  /** The text before the first newline and, when there is one, the text after it. */
  function CutLine(s: string): (r: (string, Option<string>))
    ensures '\n' !in r.0
    ensures r.1.None? ==> r.0 == s
    ensures r.1.Some? ==> s == r.0 + "\n" + r.1.value
  {
    var i := Find(s, '\n');
    if i < 0 then (s, None)
    else
      assert s == s[..i] + "\n" + s[i + 1..];
      (s[..i], Some(s[i + 1..]))
  }

  lemma {:induction false} CutLineOf(line: string, rest: string)
    requires '\n' !in line
    ensures CutLine(line + "\n" + rest) == (line, Some(rest))
  {
    FindFirst(line, rest, '\n');
    var s := line + "\n" + rest;
    assert s == line + ['\n'] + rest;
    assert s[..|line|] == line;
    assert s[|line| + 1..] == rest;
  }

  /** The text after `prefix` when `line` starts with it. */
  function AfterLabel(line: string, prefix: string): (r: Option<string>)
    ensures r.Some? ==> line == prefix + r.value
  {
    if StartsWith(line, prefix) then
      assert line == line[..|prefix|] + line[|prefix|..];
      Some(line[|prefix|..])
    else None
  }

  /** Reads a description back into its four fields; the content is the whole
      remainder, so it may span several lines. */
  function ParseDescription(s: string): (r: Option<UpdateInfo>)
  {
    var (l0, r0) := CutLine(s);
    if r0.None? then None else
    var (l1, r1) := CutLine(r0.value);
    if r1.None? then None else
    var (l2, r2) := CutLine(r1.value);
    if r2.None? then None else
    match (AfterLabel(l0, TitleLabel), AfterLabel(l1, UserLabel), AfterLabel(l2, DateLabel), AfterLabel(r2.value, PreviewLabel))
    case (Some(title), Some(user), Some(date), Some(preview)) => Some(UpdateInfo(title, user, date, preview))
    case _ => None
  }

  /** A description can be read back when the first three fields are single
      lines: the content keeps any newlines it has. */
  lemma {:induction false} DescriptionRoundTrip(info: UpdateInfo)
    requires '\n' !in info.title && '\n' !in info.userName && '\n' !in info.creationDate
    ensures ParseDescription(MakeDescription(info)) == Some(info)
  {
    var l0 := TitleLabel + info.title;
    var l1 := UserLabel + info.userName;
    var l2 := DateLabel + info.creationDate;
    var l3 := PreviewLabel + info.preview;
    DescriptionLines(info);
    LabelledLine(TitleLabel, info.title);
    LabelledLine(UserLabel, info.userName);
    LabelledLine(DateLabel, info.creationDate);
    CutLineOf(l0, l1 + "\n" + (l2 + "\n" + l3));
    CutLineOf(l1, l2 + "\n" + l3);
    CutLineOf(l2, l3);
    AfterLabelOf(TitleLabel, info.title);
    AfterLabelOf(UserLabel, info.userName);
    AfterLabelOf(DateLabel, info.creationDate);
    AfterLabelOf(PreviewLabel, info.preview);
  }

  /** The description as its first line, a newline, and the rest. */
  lemma DescriptionLines(info: UpdateInfo)
    ensures MakeDescription(info)
            == (TitleLabel + info.title) + "\n" + ((UserLabel + info.userName) + "\n"
               + ((DateLabel + info.creationDate) + "\n" + (PreviewLabel + info.preview)))
  {
  }

  /** A labelled field reads back as the field. */
  lemma AfterLabelOf(prefix: string, field: string)
    ensures AfterLabel(prefix + field, prefix) == Some(field)
  {
    assert (prefix + field)[..|prefix|] == prefix;
    assert (prefix + field)[|prefix|..] == field;
  }

  lemma LabelledLine(prefix: string, field: string)
    requires '\n' !in prefix && '\n' !in field
    ensures '\n' !in prefix + field
    ensures (prefix + field)[..|prefix|] == prefix && (prefix + field)[|prefix|..] == field
  {
  }

  /** Different updates never share a description when their first three fields
      are single lines. */
  lemma DescriptionInjective(a: UpdateInfo, b: UpdateInfo)
    requires '\n' !in a.title && '\n' !in a.userName && '\n' !in a.creationDate
    requires '\n' !in b.title && '\n' !in b.userName && '\n' !in b.creationDate
    requires MakeDescription(a) == MakeDescription(b)
    ensures a == b
  {
    DescriptionRoundTrip(a);
    DescriptionRoundTrip(b);
  }
}
