/** The rendered snapshot configuration and the plan it makes up. */
module BtrbkTexts {
  import opened Runs
  import opened Text
  import opened Btrbk

  /** A caller-selected path, spelled as the caller spelled it. */
  type Subvolume = string

  predicate AllowedChar(c: char) {
    'a' <= c <= 'z' || 'A' <= c <= 'Z' || '0' <= c <= '9' || c in {'.', '_', '-'}
  }

  /** Between slashes, nothing and a single dot are no components, except at the front, where they make
      the path absolute, empty or explicitly relative. */
  predicate ValidPart(part: string, first: bool) {
    if part == "" || part == "." then !first
    else part != ".." && forall i :: 0 <= i < |part| ==> AllowedChar(part[i])
  }

  predicate ValidSubvolume(s: Subvolume) {
    var parts := Split(s, '/');
    forall i :: 0 <= i < |parts| ==> ValidPart(parts[i], i == 0)
  }

  const FORMAT: string := "timestamp_format long"

  const KEPT_LEAST: string := "snapshot_preserve_min 6h"

  const KEPT: string := "snapshot_preserve 24h 31d 6m"

  const VOLUME: string := "volume /var/lib/data"

  const HEADER: string := FORMAT + "\n" + KEPT_LEAST + "\n" + KEPT + "\n" + VOLUME + "\n"

  const SUBVOLUME: string := "  subvolume "

  const SNAPSHOTS: string := "    snapshot_dir snapshots/"

  const SNAPSHOT_DIR: string := "\n" + SNAPSHOTS

  function Entry(before: string, between: string, source: string): string {
    before + source + between + source + "\n"
  }

  function Entries(before: string, between: string, sources: seq<string>): string {
    if sources == [] then "" else Entry(before, between, sources[0]) + Entries(before, between, sources[1..])
  }

  function ConfigText(sources: seq<string>): string {
    HEADER + Entries(SUBVOLUME, SNAPSHOT_DIR, sources)
  }

  lemma {:induction false} EntriesAppend(before: string, between: string, sources: seq<string>, last: string)
    ensures Entries(before, between, sources + [last]) == Entries(before, between, sources) + Entry(before, between, last)
  {
    if sources == [] {
      assert ([] + [last])[1..] == [];
    } else {
      EntriesAppend(before, between, sources[1..], last);
      assert (sources + [last])[1..] == sources[1..] + [last];
    }
  }

  method RenderConfig(sources: seq<string>) returns (output: string)
    ensures output == ConfigText(sources)
  {
    output := HEADER;
    for i := 0 to |sources|
      invariant output == HEADER + Entries(SUBVOLUME, SNAPSHOT_DIR, sources[..i])
    {
      EntriesAppend(SUBVOLUME, SNAPSHOT_DIR, sources[..i], sources[i]);
      assert sources[..i + 1] == sources[..i] + [sources[i]];
      output := output + SUBVOLUME;
      output := output + sources[i];
      output := output + SNAPSHOT_DIR;
      output := output + sources[i];
      output := output + "\n";
      assert output == (HEADER + Entries(SUBVOLUME, SNAPSHOT_DIR, sources[..i])) + Entry(SUBVOLUME, SNAPSHOT_DIR, sources[i]);
    }
    assert sources[..|sources|] == sources;
  }

  // Reading a rendering back --------------------------------------------------------------------

  predicate OneLine(s: string) {
    forall i :: 0 <= i < |s| ==> s[i] != '\n'
  }

  lemma ValidIsOneLine(s: Subvolume)
    requires ValidSubvolume(s)
    ensures OneLine(s)
  {
    forall i | 0 <= i < |s| ensures s[i] != '\n' {
      if s[i] != '/' {
        PartWith(s, '/', i);
        var j :| 0 <= j < |Split(s, '/')| && s[i] in Split(s, '/')[j];
        assert ValidPart(Split(s, '/')[j], j == 0);
      }
    }
  }

  /** A line and what follows it are determined by their concatenation. */
  lemma SplitAtNewline(a: string, b: string, x: string, y: string)
    requires OneLine(a) && OneLine(b)
    requires a + "\n" + x == b + "\n" + y
    ensures a == b && x == y
  {
    var l, r := a + "\n" + x, b + "\n" + y;
    assert l[|a|] == '\n' && r[|b|] == '\n';
    assert (forall i :: 0 <= i < |a| ==> l[i] == a[i]) && (forall i :: 0 <= i < |b| ==> r[i] == b[i]);
    assert |a| == |b|;
    assert a == l[..|a|] == r[..|b|] == b;
    assert x == l[|a| + 1..] == r[|b| + 1..] == y;
  }

  lemma EntryInjective(before: string, between: string, a: string, b: string, x: string, y: string)
    requires OneLine(before) && OneLine(a) && OneLine(b) && between != "" && between[0] == '\n'
    requires Entry(before, between, a) + x == Entry(before, between, b) + y
    ensures a == b && x == y
  {
    var tailA, tailB := between[1..] + a + "\n" + x, between[1..] + b + "\n" + y;
    assert between == "\n" + between[1..];
    assert Entry(before, between, a) + x == (before + a) + "\n" + tailA;
    assert Entry(before, between, b) + y == (before + b) + "\n" + tailB;
    SplitAtNewline(before + a, before + b, tailA, tailB);
    assert a == (before + a)[|before|..] == (before + b)[|before|..] == b;
    var e := Entry(before, between, a);
    assert x == (e + x)[|e|..] == (e + y)[|e|..] == y;
  }

  /** Different selections render different configurations, so their revisions differ as well. */
  lemma {:induction false} EntriesInjective(before: string, between: string, a: seq<string>, b: seq<string>)
    requires OneLine(before) && between != "" && between[0] == '\n'
    requires forall i :: 0 <= i < |a| ==> OneLine(a[i])
    requires forall i :: 0 <= i < |b| ==> OneLine(b[i])
    requires Entries(before, between, a) == Entries(before, between, b)
    ensures a == b
  {
    if a != [] && b != [] {
      EntryInjective(before, between, a[0], b[0], Entries(before, between, a[1..]), Entries(before, between, b[1..]));
      EntriesInjective(before, between, a[1..], b[1..]);
      assert a == [a[0]] + a[1..] && b == [b[0]] + b[1..];
    }
  }

  lemma ConfigTextInjective(a: seq<Subvolume>, b: seq<Subvolume>)
    requires AllValid(a) && AllValid(b)
    requires ConfigText(a) == ConfigText(b)
    ensures a == b
  {
    var x, y := Entries(SUBVOLUME, SNAPSHOT_DIR, a), Entries(SUBVOLUME, SNAPSHOT_DIR, b);
    assert x == (HEADER + x)[|HEADER|..] == (HEADER + y)[|HEADER|..] == y;
    forall i | 0 <= i < |a| ensures OneLine(a[i]) { ValidIsOneLine(a[i]); }
    forall i | 0 <= i < |b| ensures OneLine(b[i]) { ValidIsOneLine(b[i]); }
    EntriesInjective(SUBVOLUME, SNAPSHOT_DIR, a, b);
  }

  function EntryLines(before: string, after: string, sources: seq<string>): seq<string> {
    if sources == [] then [""] else [before + sources[0]] + ([after + sources[0]] + EntryLines(before, after, sources[1..]))
  }

  lemma {:induction false} EntriesSplit(before: string, after: string, sources: seq<string>)
    requires OneLine(before) && OneLine(after) && forall i :: 0 <= i < |sources| ==> OneLine(sources[i])
    ensures Split(Entries(before, "\n" + after, sources), '\n') == EntryLines(before, after, sources)
  {
    if sources != [] {
      hide Split;
      var rest := Entries(before, "\n" + after, sources[1..]);
      var first, second := before + sources[0], after + sources[0];
      assert Entry(before, "\n" + after, sources[0]) + rest == first + ['\n'] + (second + ['\n'] + rest);
      SplitFirst(first, second + ['\n'] + rest, '\n');
      SplitFirst(second, rest, '\n');
      EntriesSplit(before, after, sources[1..]);
    }
  }

  lemma {:induction false} EntryLineAt(before: string, after: string, sources: seq<string>)
    ensures var lines := EntryLines(before, after, sources);
      && |lines| == 2 * |sources| + 1 && lines[2 * |sources|] == ""
      && (forall i :: 0 <= i < |sources| ==> lines[2 * i] == before + sources[i] && lines[2 * i + 1] == after + sources[i])
  {
    if sources != [] {
      EntryLineAt(before, after, sources[1..]);
      var lines, others := EntryLines(before, after, sources), EntryLines(before, after, sources[1..]);
      forall i | 0 <= i < |sources| ensures lines[2 * i] == before + sources[i] && lines[2 * i + 1] == after + sources[i] {
        if i > 0 { assert lines[2 * i] == others[2 * (i - 1)] && lines[2 * i + 1] == others[2 * (i - 1) + 1]; }
      }
    }
  }

  lemma FourLines(a: string, b: string, c: string, d: string, rest: string)
    requires OneLine(a) && OneLine(b) && OneLine(c) && OneLine(d)
    ensures Split(a + "\n" + b + "\n" + c + "\n" + d + "\n" + rest, '\n') == [a, b, c, d] + Split(rest, '\n')
  {
    hide Split;
    var x := d + ['\n'] + rest;
    var y := c + ['\n'] + x;
    var z := b + ['\n'] + y;
    assert a + "\n" + b + "\n" + c + "\n" + d + "\n" + rest == a + ['\n'] + z;
    SplitFirst(a, z, '\n');
    SplitFirst(b, y, '\n');
    SplitFirst(c, x, '\n');
    SplitFirst(d, rest, '\n');
    var tail := Split(rest, '\n');
    assert [a] + ([b] + ([c] + ([d] + tail))) == [a, b, c, d] + tail;
  }

  /** The rendered configuration line by line: the format, what is kept and where, then each subvolume with
      its own snapshot directory, in the order given. */
  lemma ConfigLines(sources: seq<Subvolume>)
    requires AllValid(sources)
    ensures var lines := Split(ConfigText(sources), '\n');
      && |lines| == 2 * |sources| + 5
      && lines[..4] == ["timestamp_format long", "snapshot_preserve_min 6h", "snapshot_preserve 24h 31d 6m", "volume /var/lib/data"]
      && (forall i :: 0 <= i < |sources| ==>
            lines[2 * i + 4] == "  subvolume " + sources[i] && lines[2 * i + 5] == "    snapshot_dir snapshots/" + sources[i])
      && lines[2 * |sources| + 4] == ""
  {
    forall i | 0 <= i < |sources| ensures OneLine(sources[i]) { ValidIsOneLine(sources[i]); }
    LinesOf(FORMAT, KEPT_LEAST, KEPT, VOLUME, SUBVOLUME, SNAPSHOTS, sources);
  }

  lemma LinesOf(a: string, b: string, c: string, d: string, before: string, after: string, sources: seq<string>)
    requires OneLine(a) && OneLine(b) && OneLine(c) && OneLine(d) && OneLine(before) && OneLine(after)
    requires forall i :: 0 <= i < |sources| ==> OneLine(sources[i])
    ensures var lines := Split(a + "\n" + b + "\n" + c + "\n" + d + "\n" + Entries(before, "\n" + after, sources), '\n');
      && |lines| == 2 * |sources| + 5 && lines[..4] == [a, b, c, d] && lines[2 * |sources| + 4] == ""
      && (forall i :: 0 <= i < |sources| ==> lines[2 * i + 4] == before + sources[i] && lines[2 * i + 5] == after + sources[i])
  {
    hide Split, Entries;
    var rest := Entries(before, "\n" + after, sources);
    FourLines(a, b, c, d, rest);
    EntriesSplit(before, after, sources);
    EntryLineAt(before, after, sources);
    hide EntryLines;
    var lines, tail := [a, b, c, d] + Split(rest, '\n'), Split(rest, '\n');
    forall i | 0 <= i < |sources| ensures lines[2 * i + 4] == before + sources[i] && lines[2 * i + 5] == after + sources[i] {
      assert lines[2 * i + 4] == tail[2 * i] && lines[2 * i + 5] == tail[2 * i + 1];
    }
  }

  // Plans ---------------------------------------------------------------------------------------

  predicate AllValid(selected: seq<Subvolume>) {
    forall i :: 0 <= i < |selected| ==> ValidSubvolume(selected[i])
  }

  /** What a host with these subvolumes and unit texts converges; refused when a path is not safe. */
  function PlanOf(selected: seq<Subvolume>, service: string, timer: string, imageService: string): Option<Plan> {
    if AllValid(selected) then
      Some(Plan(ConfigText(selected), service, timer, imageService, selected))
    else None
  }

  /** Legacy and image receipts of one host never coincide: one text opens with the marker, the other
      with the snapshot configuration. */
  lemma PlansAreValid(selected: seq<Subvolume>, service: string, timer: string, imageService: string)
    requires selected != [] && AllValid(selected)
    ensures PlanOf(selected, service, timer, imageService).Some?
    ensures ValidPlan(PlanOf(selected, service, timer, imageService).value)
  {
    var p := PlanOf(selected, service, timer, imageService).value;
    assert HEADER[0] == 't';
    assert LegacyRevision(p)[0] == 't';
    assert ImageRevision(p)[0] == '1';
  }
}
