/** Texts taken apart at a separator. */
module Text {

  /** The parts of `s` between separators; an empty text has one empty part. */
  function Split(s: string, separator: char): (parts: seq<string>)
    ensures |parts| > 0
  {
    if s == "" then [""]
    else if s[0] == separator then [""] + Split(s[1..], separator)
    else var rest := Split(s[1..], separator); [[s[0]] + rest[0]] + rest[1..]
  }

  /** Nothing of a text is lost: every other character is in one of its parts. */
  lemma {:induction false} PartWith(s: string, separator: char, i: nat)
    requires i < |s| && s[i] != separator
    ensures exists j :: 0 <= j < |Split(s, separator)| && s[i] in Split(s, separator)[j]
    decreases |s|
  {
    var parts, rest := Split(s, separator), Split(s[1..], separator);
    if i == 0 {
      assert s[0] in parts[0];
    } else {
      PartWith(s[1..], separator, i - 1);
      var j :| 0 <= j < |rest| && s[i] in rest[j];
      if s[0] == separator {
        assert parts[j + 1] == rest[j];
      } else if j == 0 {
        assert parts[0] == [s[0]] + rest[0];
      } else {
        assert parts[j] == rest[j];
      }
    }
  }

  /** The first part ends at the first separator. */
  lemma {:induction false} SplitFirst(part: string, s: string, separator: char)
    requires separator !in part
    ensures Split(part + [separator] + s, separator) == [part] + Split(s, separator)
    decreases |part|
  {
    var whole := part + [separator] + s;
    if part == "" {
      assert whole == [separator] + s && whole[1..] == s;
    } else {
      assert separator !in part[1..] && part[0] in part;
      assert whole[1..] == part[1..] + [separator] + s;
      SplitFirst(part[1..], s, separator);
      assert ([part[1..]] + Split(s, separator))[1..] == Split(s, separator);
      assert [part[0]] + part[1..] == part;
    }
  }

  lemma {:induction false} SplitOne(part: string, separator: char)
    requires separator !in part
    ensures Split(part, separator) == [part]
    decreases |part|
  {
    if part != "" {
      assert separator !in part[1..] && part[0] in part;
      SplitOne(part[1..], separator);
      assert [part[0]] + part[1..] == part;
    }
  }
}
