/** Archive names and the retention rule: which of the recognised archives a prune removes. */
module Retention {
  import opened Runs
  import opened Decimal

  // Stamps in names -----------------------------------------------------------------------------

  const LIMIT: nat := 0x1_0000_0000_0000_0000_0000_0000_0000_0000

  /** A 128-bit unsigned number as the standard library reads it: a plus sign and leading zeros pass. */
  function Parse(s: string): Option<nat> {
    var digits := if s != "" && s[0] == '+' then s[1..] else s;
    if digits == "" || !AllDigits(digits) then None
    else if Value(digits) < LIMIT then Some(Value(digits))
    else None
  }

  lemma ParseOfPrint(n: nat)
    requires n < LIMIT
    ensures Parse(Print(n)) == Some(n)
  {
    ValueOfPrint(n);
    assert IsDigit(Print(n)[0]);
  }

  function StripPrefix(s: string, prefix: string): Option<string> {
    if prefix <= s then Some(s[|prefix|..]) else None
  }

  function StripSuffix(s: string, suffix: string): Option<string> {
    if |suffix| <= |s| && s[|s| - |suffix|..] == suffix then Some(s[..|s| - |suffix|]) else None
  }

  const TAR_PREFIX := "gokapi-"
  const TAR_SUFFIX := ".tar"

  function TarName(stamp: nat): string {
    TAR_PREFIX + Print(stamp) + TAR_SUFFIX
  }

  function PendingName(stamp: nat): string {
    ".syncthing.gokapi-" + Print(stamp) + ".tmp"
  }

  function TarStamp(name: string): Option<nat> {
    match StripPrefix(name, TAR_PREFIX)
    case None => None
    case Some(rest) => match StripSuffix(rest, TAR_SUFFIX)
      case None => None
      case Some(middle) => Parse(middle)
  }

  /** A published name is recognised by its stamp; a pending one never is. */
  lemma NamesAreTold(stamp: nat)
    requires stamp < LIMIT
    ensures TarStamp(TarName(stamp)) == Some(stamp)
    ensures TarStamp(PendingName(stamp)) == None && ".syncthing." <= PendingName(stamp)
  {
    ParseOfPrint(stamp);
    var name, rest := TarName(stamp), Print(stamp) + TAR_SUFFIX;
    assert name == TAR_PREFIX + rest;
    assert name[|TAR_PREFIX|..] == rest;
    assert rest[|rest| - |TAR_SUFFIX|..] == TAR_SUFFIX && rest[..|rest| - |TAR_SUFFIX|] == Print(stamp);
    assert PendingName(stamp)[0] == '.' && TAR_PREFIX[0] == 'g';
  }

  /** These characters are digits, and the number that they write fits in 128 bits. */
  predicate Writes(digits: string, n: nat) {
    digits != "" && AllDigits(digits) && Value(digits) == n && n < 0x1_0000_0000_0000_0000_0000_0000_0000_0000
  }

  lemma ParseIs(s: string, n: nat)
    ensures Parse(s) == Some(n) <==> exists digits: string :: Writes(digits, n) && (s == digits || s == "+" + digits)
  {
    var digits := if s != "" && s[0] == '+' then s[1..] else s;
    if Parse(s) == Some(n) { assert Writes(digits, n) && (s == digits || s == "+" + digits); }
    if d: string :| Writes(d, n) && (s == d || s == "+" + d) {
      assert IsDigit(d[0]);
      if s != d { assert s[1..] == d; }
    }
  }

  /** What is between prefix and suffix. */
  function Middle(name: string): Option<string> {
    match StripPrefix(name, TAR_PREFIX)
    case None => None
    case Some(rest) => StripSuffix(rest, TAR_SUFFIX)
  }

  lemma MiddleIs(name: string, middle: string)
    ensures Middle(name) == Some(middle) <==> name == "gokapi-" + middle + ".tar"
  {
    if Middle(name) == Some(middle) {
      var rest := StripPrefix(name, TAR_PREFIX).value;
      assert rest == middle + ".tar" && name == "gokapi-" + rest;
    }
    if name == "gokapi-" + middle + ".tar" {
      var rest := middle + ".tar";
      assert |"gokapi-"| == 7 && |".tar"| == 4;
      assert name == "gokapi-" + rest && "gokapi-" <= name && name[7..] == rest;
      assert rest[|rest| - 4..] == ".tar" && rest[..|rest| - 4] == middle;
    }
  }

  /** Which names are archives' and of which stamp. */
  lemma TarStampIs(name: string, n: nat)
    ensures TarStamp(name) == Some(n) <==>
      exists digits: string :: Writes(digits, n) && (name == "gokapi-" + digits + ".tar" || name == "gokapi-" + ("+" + digits) + ".tar")
  {
    assert TarStamp(name) == Some(n) <==> Middle(name).Some? && Parse(Middle(name).value) == Some(n);
    hide Writes, Parse, TarStamp, Middle;
    if TarStamp(name) == Some(n) {
      var middle := Middle(name).value;
      MiddleIs(name, middle);
      ParseIs(middle, n);
    }
    if digits: string :| Writes(digits, n) && (name == "gokapi-" + digits + ".tar" || name == "gokapi-" + ("+" + digits) + ".tar") {
      var middle := if name == "gokapi-" + digits + ".tar" then digits else "+" + digits;
      MiddleIs(name, middle);
      ParseIs(middle, n);
    }
  }

  const SET_PREFIX := "airtrail-"

  function SetName(stamp: nat): string {
    SET_PREFIX + Print(stamp)
  }

  function SetStamp(name: string): Option<nat> {
    match StripPrefix(name, SET_PREFIX)
    case None => None
    case Some(rest) => Parse(rest)
  }

  lemma SetNameIsTold(stamp: nat)
    requires stamp < LIMIT
    ensures SetStamp(SetName(stamp)) == Some(stamp)
  {
    ParseOfPrint(stamp);
    assert SetName(stamp)[|SET_PREFIX|..] == Print(stamp);
  }

  lemma SetStampIs(name: string, n: nat)
    ensures SetStamp(name) == Some(n) <==>
      exists digits: string :: Writes(digits, n) && (name == "airtrail-" + digits || name == "airtrail-+" + digits)
  {
    hide Writes, Parse;
    if SetStamp(name) == Some(n) {
      var rest := StripPrefix(name, SET_PREFIX).value;
      ParseIs(rest, n);
      var digits: string :| Writes(digits, n) && (rest == digits || rest == "+" + digits);
      if rest == digits { assert name == "airtrail-" + digits; } else { assert name == "airtrail-+" + digits; }
    }
    if digits: string :| Writes(digits, n) && (name == "airtrail-" + digits || name == "airtrail-+" + digits) {
      var rest := if name == "airtrail-" + digits then digits else "+" + digits;
      ParseIs(rest, n);
      assert name == "airtrail-" + rest && name[9..] == rest;
    }
  }

  // Order ---------------------------------------------------------------------------------------

  /** Byte order of names. */
  predicate Less(a: string, b: string) {
    b != "" && (a == "" || a[0] < b[0] || (a[0] == b[0] && Less(a[1..], b[1..])))
  }

  lemma {:induction false} LessIsStrict(a: string, b: string)
    ensures !(Less(a, b) && Less(b, a))
    ensures a != b ==> Less(a, b) || Less(b, a)
    ensures a == b ==> !Less(a, b)
    decreases |a|
  {
    if a != "" && b != "" {
      LessIsStrict(a[1..], b[1..]);
      if a[0] == b[0] && a[1..] == b[1..] { assert a == [a[0]] + a[1..] && b == [b[0]] + b[1..]; }
    }
  }

  lemma {:induction false} LessIsTransitive(a: string, b: string, c: string)
    requires Less(a, b) && Less(b, c)
    ensures Less(a, c)
    decreases |a|
  {
    if a != "" && a[0] == b[0] && b[0] == c[0] { LessIsTransitive(a[1..], b[1..], c[1..]); }
  }

  /** A recognised archive: its stamp, its name and its place in the directory listing. */
  datatype Mark = Mark(stamp: nat, name: string, at: nat)

  /** Ascending stamps, then names. */
  predicate Older(a: Mark, b: Mark) {
    a.stamp < b.stamp || (a.stamp == b.stamp && Less(a.name, b.name))
  }

  /** Descending stamps; a stable sort leaves equal stamps in listing order. */
  predicate Ahead(a: Mark, b: Mark) {
    a.stamp > b.stamp || (a.stamp == b.stamp && a.at < b.at)
  }

  type Order = (Mark, Mark) -> bool

  ghost predicate Strict(less: Order, s: seq<Mark>) {
    && (forall x, y :: x in s && y in s && x != y ==> less(x, y) || less(y, x))
    && (forall x, y :: x in s && y in s ==> !(less(x, y) && less(y, x)))
    && (forall x, y, z :: x in s && y in s && z in s && less(x, y) && less(y, z) ==> less(x, z))
  }

  predicate Sorted(s: seq<Mark>, less: Order) {
    forall i, j :: 0 <= i < j < |s| ==> less(s[i], s[j])
  }

  predicate Distinct(s: seq<Mark>) {
    forall i, j :: 0 <= i < j < |s| ==> s[i] != s[j]
  }

  function Insert(x: Mark, s: seq<Mark>, less: Order): seq<Mark>
    decreases |s|
  {
    if s == [] || less(x, s[0]) then [x] + s else [s[0]] + Insert(x, s[1..], less)
  }

  function Sort(s: seq<Mark>, less: Order): seq<Mark>
    decreases |s|
  {
    if s == [] then [] else Insert(s[0], Sort(s[1..], less), less)
  }

  lemma {:induction false} InsertKeeps(x: Mark, s: seq<Mark>, less: Order)
    ensures forall y :: y in Insert(x, s, less) <==> y == x || y in s
    ensures |Insert(x, s, less)| == |s| + 1
    decreases |s|
  {
    if !(s == [] || less(x, s[0])) {
      InsertKeeps(x, s[1..], less);
      assert s == [s[0]] + s[1..];
    }
  }

  lemma {:induction false} InsertSorts(x: Mark, s: seq<Mark>, less: Order)
    requires Strict(less, [x] + s) && Sorted(s, less) && x !in s
    ensures Sorted(Insert(x, s, less), less)
    decreases |s|
  {
    if s == [] {
    } else if less(x, s[0]) {
      forall j | 0 <= j < |s| ensures less(x, s[j]) {
        assert s[0] in [x] + s && s[j] in [x] + s && x in [x] + s;
      }
    } else {
      assert s[0] in [x] + s && x in [x] + s;
      var tail := s[1..];
      assert forall y :: y in [x] + tail ==> y in [x] + s;
      InsertSorts(x, tail, less);
      InsertKeeps(x, tail, less);
      var r := Insert(x, tail, less);
      forall j | 0 <= j < |r| ensures less(s[0], r[j]) {
        assert r[j] in r;
        if r[j] != x {
          var k :| 0 <= k < |tail| && tail[k] == r[j];
          assert less(s[0], s[k + 1]);
        }
      }
    }
  }

  lemma {:induction false} SortSound(s: seq<Mark>, less: Order)
    requires Strict(less, s) && Distinct(s)
    ensures Sorted(Sort(s, less), less)
    ensures forall y :: y in Sort(s, less) <==> y in s
    ensures |Sort(s, less)| == |s|
    decreases |s|
  {
    if s != [] {
      var tail := s[1..];
      assert forall y :: y in tail ==> y in s;
      assert s == [s[0]] + tail;
      SortSound(tail, less);
      var t := Sort(tail, less);
      assert s[0] !in tail;
      assert forall y :: y in [s[0]] + t ==> y in s;
      InsertSorts(s[0], t, less);
      InsertKeeps(s[0], t, less);
    }
  }

  // Which are removed ---------------------------------------------------------------------------

  /** The members of `s` that `x` comes before. */
  ghost function After(s: seq<Mark>, less: Order, x: Mark): set<Mark> {
    set y | y in s && less(x, y)
  }

  ghost function Before(s: seq<Mark>, less: Order, x: Mark): set<Mark> {
    set y | y in s && less(y, x)
  }

  ghost function Members(s: seq<Mark>): set<Mark> {
    set y | y in s
  }

  lemma {:induction false} MembersCount(s: seq<Mark>)
    requires Distinct(s)
    ensures |Members(s)| == |s|
    decreases |s|
  {
    if s != [] {
      MembersCount(s[1..]);
      assert s == [s[0]] + s[1..];
      assert Members(s) == {s[0]} + Members(s[1..]);
    }
  }

  /** In a sorted list a position counts its followers and its predecessors. */
  lemma PositionCounts(s: seq<Mark>, less: Order, k: nat)
    requires Strict(less, s) && Sorted(s, less) && Distinct(s) && k < |s|
    ensures |After(s, less, s[k])| == |s| - 1 - k
    ensures |Before(s, less, s[k])| == k
  {
    MembersCount(s[k + 1..]);
    MembersCount(s[..k]);
    assert After(s, less, s[k]) == Members(s[k + 1..]) by {
      forall y ensures y in After(s, less, s[k]) <==> y in Members(s[k + 1..]) {
        if y in s {
          var j :| 0 <= j < |s| && s[j] == y;
          if j > k { assert s[k + 1..][j - k - 1] == y; }
          if j <= k { assert y !in s[k + 1..]; }
        }
      }
    }
    assert Before(s, less, s[k]) == Members(s[..k]) by {
      forall y ensures y in Before(s, less, s[k]) <==> y in Members(s[..k]) {
        if y in s {
          var j :| 0 <= j < |s| && s[j] == y;
          if j < k { assert s[..k][j] == y; }
          if j >= k { assert y !in s[..k]; }
        }
      }
    }
  }

  /** Taking all but the last `keep` of an ascending list, and skipping the first `keep` of a descending
      one, is the same rule: an archive goes exactly when `keep` or more come ahead of it. */
  lemma TakenIff(listing: seq<Mark>, keep: nat, x: Mark)
    requires Strict(Older, listing) && Distinct(listing) && x in listing
    ensures var s := Sort(listing, Older);
      x in s[..if |s| > keep then |s| - keep else 0] <==> |After(listing, Older, x)| >= keep
  {
    SortSound(listing, Older);
    var s := Sort(listing, Older);
    SortedIsDistinct(s, Older);
    assert After(s, Older, x) == After(listing, Older, x);
    var k :| 0 <= k < |s| && s[k] == x;
    PositionCounts(s, Older, k);
    var n := if |s| > keep then |s| - keep else 0;
    if k < n { assert s[..n][k] == x; }
  }

  lemma SkippedIff(listing: seq<Mark>, keep: nat, x: Mark)
    requires Strict(Ahead, listing) && Distinct(listing) && x in listing
    ensures var s := Sort(listing, Ahead);
      x in s[if |s| < keep then |s| else keep..] <==> |Before(listing, Ahead, x)| >= keep
  {
    SortSound(listing, Ahead);
    var s := Sort(listing, Ahead);
    SortedIsDistinct(s, Ahead);
    assert Before(s, Ahead, x) == Before(listing, Ahead, x);
    var k :| 0 <= k < |s| && s[k] == x;
    PositionCounts(s, Ahead, k);
    var n := if |s| < keep then |s| else keep;
    if k >= n { assert s[n..][k - n] == x; }
  }

  lemma SortedIsDistinct(s: seq<Mark>, less: Order)
    requires Strict(less, s) && Sorted(s, less)
    ensures Distinct(s)
  {
    forall i, j | 0 <= i < j < |s| ensures s[i] != s[j] {
      assert less(s[i], s[j]) && s[i] in s && s[j] in s;
    }
  }

  // Both orders are strict on a directory listing ------------------------------------------------

  predicate NamesDiffer(s: seq<Mark>) {
    forall x, y :: x in s && y in s && x.name == y.name ==> x == y
  }

  lemma OlderIsStrict(s: seq<Mark>)
    requires NamesDiffer(s)
    ensures Strict(Older, s)
  {
    forall x: Mark, y: Mark
      ensures !(Older(x, y) && Older(y, x))
      ensures x.name != y.name ==> Older(x, y) || Older(y, x)
    {
      LessIsStrict(x.name, y.name);
    }
    forall x, y, z | Older(x, y) && Older(y, z) ensures Older(x, z) {
      if x.stamp == y.stamp && y.stamp == z.stamp { LessIsTransitive(x.name, y.name, z.name); }
    }
  }

  lemma AheadIsStrict(s: seq<Mark>)
    requires forall i :: 0 <= i < |s| ==> s[i].at == i
    ensures Strict(Ahead, s) && Distinct(s)
  {
  }

  // Counting by name ----------------------------------------------------------------------------

  ghost function NamesOf(marks: set<Mark>): set<string> {
    set x | x in marks :: x.name
  }

  lemma {:induction false} NamesCount(marks: set<Mark>)
    requires forall x, y :: x in marks && y in marks && x.name == y.name ==> x == y
    ensures |NamesOf(marks)| == |marks|
    decreases |marks|
  {
    if marks != {} {
      var x :| x in marks;
      var rest := marks - {x};
      NamesCount(rest);
      assert NamesOf(marks) == NamesOf(rest) + {x.name};
      assert x.name !in NamesOf(rest);
    }
  }

  lemma CountGrows<T>(a: set<T>, b: set<T>)
    requires a <= b
    ensures |a| <= |b|
  {
    assert b == a + (b - a);
  }

  /** One of the first `n` archives of a list has this name. */
  predicate Removing(archives: seq<Mark>, n: nat, name: string)
    requires n <= |archives|
  {
    exists k :: 0 <= k < n && archives[k].name == name
  }
}
