/** DNS labels, domains and relative aliases. A character is one byte. */
module CaddyNames {
  import opened Runs
  import opened Text

  predicate Alphanumeric(c: char) {
    'a' <= c <= 'z' || 'A' <= c <= 'Z' || '0' <= c <= '9'
  }

  predicate ValidLabel(s: string) {
    && 0 < |s| <= 63
    && Alphanumeric(s[0]) && Alphanumeric(s[|s| - 1])
    && (forall i :: 0 <= i < |s| ==> Alphanumeric(s[i]) || s[i] == '-')
  }

  function Join(parts: seq<string>): string {
    if parts == [] then ""
    else if |parts| == 1 then parts[0]
    else parts[0] + "." + Join(parts[1..])
  }

  predicate ValidLabels(parts: seq<string>) {
    forall i :: 0 <= i < |parts| ==> ValidLabel(parts[i])
  }

  predicate ValidDomain(s: string) {
    |s| <= 253 && |Split(s, '.')| >= 2 && ValidLabels(Split(s, '.'))
  }

  predicate EndsWith(s: string, suffix: string) {
    |suffix| <= |s| && s[|s| - |suffix|..] == suffix
  }

  predicate InZone(domain: string, zone: string) {
    ValidDomain(domain) && ValidDomain(zone) && (domain == zone || EndsWith(domain, "." + zone))
  }

  const HOST_LABEL := "{host}"
  const ZONE_SUFFIX := ".{zone}"

  function ExpandLabel(part: string, host: string): Option<string> {
    if part == HOST_LABEL then Some(host)
    else if '{' in part || '}' in part || !ValidLabel(part) then None
    else Some(part)
  }

  function ExpandLabels(parts: seq<string>, host: string): Option<seq<string>> {
    if parts == [] then Some([]) else
    match ExpandLabel(parts[0], host)
    case None => None
    case Some(part) => match ExpandLabels(parts[1..], host)
      case None => None
      case Some(rest) => Some([part] + rest)
  }

  function ExpandAlias(text: string, host: string): Option<string> {
    if text == "" || |text| > 253 || text[0] == '.' || text[|text| - 1] == '.' then None else
    match ExpandLabels(Split(text, '.'), host)
    case None => None
    case Some(labels) => Some(Join(labels))
  }

  function ResolveAlias(text: string, host: string, uiDomain: string, zone: Option<string>): Option<string> {
    if EndsWith(text, ZONE_SUFFIX) then
      if zone.None? then None else Under(ExpandAlias(text[..|text| - |ZONE_SUFFIX|], host), zone.value)
    else
      Under(ExpandAlias(text, host), uiDomain)
  }

  function Under(relative: Option<string>, domain: string): Option<string> {
    if relative.None? then None else Some(relative.value + "." + domain)
  }

  function Prepend(labels: seq<string>, rest: Option<seq<string>>): Option<seq<string>> {
    if rest.None? then None else Some(labels + rest.value)
  }

  method ExpandAliasLabels(text: string, host: string) returns (r: Option<string>)
    ensures r == ExpandAlias(text, host)
  {
    if text == "" || |text| > 253 || text[0] == '.' || text[|text| - 1] == '.' { return None; }
    var parts, labels: seq<string> := Split(text, '.'), [];
    assert parts[0..] == parts && forall rest: seq<string> :: labels + rest == rest;
    for i := 0 to |parts|
      invariant ExpandLabels(parts, host) == Prepend(labels, ExpandLabels(parts[i..], host))
    {
      assert parts[i..][1..] == parts[i + 1..];
      ghost var rest := ExpandLabels(parts[i + 1..], host);
      assert ExpandLabel(parts[i], host).Some? && rest.Some? ==>
        labels + ([ExpandLabel(parts[i], host).value] + rest.value) == (labels + [ExpandLabel(parts[i], host).value]) + rest.value;
      if parts[i] == HOST_LABEL {
        labels := labels + [host];
      } else {
        if '{' in parts[i] || '}' in parts[i] { return None; }
        if !ValidLabel(parts[i]) { return None; }
        labels := labels + [parts[i]];
      }
    }
    assert parts[|parts|..] == [] && labels + [] == labels;
    return Some(Join(labels));
  }

  // What names mean -----------------------------------------------------------------------------

  lemma NameEndsWith(prefix: string, domain: string)
    ensures EndsWith(prefix + "." + domain, "." + domain)
  {
    var s := prefix + ("." + domain);
    assert prefix + "." + domain == s && s[|prefix|..] == "." + domain;
  }

  /** Everything below the UI domain is below the zone that holds it. */
  lemma EndsInZone(s: string, domain: string, zone: string)
    requires EndsWith(s, "." + domain) && InZone(domain, zone)
    ensures EndsWith(s, "." + zone)
  {
    if domain != zone {
      var a, b := "." + domain, "." + zone;
      assert s[|s| - |b|..] == s[|s| - |a|..][|a| - |b|..];
      assert a[|a| - |b|..] == domain[|domain| - |b|..];
    }
  }

  lemma ResolvedEndsWith(text: string, host: string, uiDomain: string, zone: Option<string>)
    requires ResolveAlias(text, host, uiDomain, zone).Some?
    ensures var r := ResolveAlias(text, host, uiDomain, zone).value;
      EndsWith(r, "." + uiDomain) || (zone.Some? && EndsWith(r, "." + zone.value))
  {
    if EndsWith(text, ZONE_SUFFIX) {
      NameEndsWith(ExpandAlias(text[..|text| - |ZONE_SUFFIX|], host).value, zone.value);
    } else {
      NameEndsWith(ExpandAlias(text, host).value, uiDomain);
    }
  }

  predicate Dotless(s: string) {
    '.' !in s
  }

  /** Labels joined by dots are found again, so a name of valid labels under a domain of valid labels
      has valid labels only. */
  lemma {:induction false} SplitJoin(parts: seq<string>)
    requires parts != [] && forall i :: 0 <= i < |parts| ==> Dotless(parts[i])
    ensures Split(Join(parts), '.') == parts
    decreases |parts|
  {
    if |parts| == 1 {
      SplitOne(parts[0], '.');
    } else {
      SplitJoin(parts[1..]);
      SplitFirst(parts[0], Join(parts[1..]), '.');
    }
  }

  /** A relative alias names exactly its own labels, each `{host}` replaced by the host. */
  lemma {:induction false} ExpandedLabels(parts: seq<string>, host: string)
    requires ExpandLabels(parts, host).Some? && ValidLabel(host)
    ensures var labels := ExpandLabels(parts, host).value;
      && |labels| == |parts| && ValidLabels(labels)
      && (forall i :: 0 <= i < |parts| ==> labels[i] == if parts[i] == HOST_LABEL then host else parts[i])
    decreases |parts|
  {
    if parts != [] { ExpandedLabels(parts[1..], host); }
  }

  lemma AliasLabels(text: string, host: string)
    requires ExpandAlias(text, host).Some? && ValidLabel(host)
    ensures var labels, parts := Split(ExpandAlias(text, host).value, '.'), Split(text, '.');
      && |labels| == |parts| && ValidLabels(labels)
      && (forall i :: 0 <= i < |parts| ==> labels[i] == if parts[i] == HOST_LABEL then host else parts[i])
  {
    hide Split;
    ExpandedLabels(Split(text, '.'), host);
    var labels := ExpandLabels(Split(text, '.'), host).value;
    forall i | 0 <= i < |labels| ensures Dotless(labels[i]) {
      assert ValidLabel(labels[i]);
    }
    SplitJoin(labels);
  }

  /** Each part is the placeholder of the host or a valid label. */
  predicate AllExpand(parts: seq<string>) {
    forall i :: 0 <= i < |parts| ==> Expands(parts[i])
  }

  predicate Expands(part: string) {
    part == "{host}" || ValidLabel(part)
  }

  lemma {:induction false} LabelsExpandIff(parts: seq<string>, host: string)
    ensures ExpandLabels(parts, host).Some? <==> AllExpand(parts)
    decreases |parts|
  {
    if parts != [] {
      LabelsExpandIff(parts[1..], host);
      assert ValidLabel(parts[0]) ==> '{' !in parts[0] && '}' !in parts[0];
      assert ExpandLabel(parts[0], host).Some? <==> Expands(parts[0]);
      hide Expands, ExpandLabel;
      assert AllExpand(parts) <==> Expands(parts[0]) && AllExpand(parts[1..]) by {
        if AllExpand(parts) {
          forall i | 0 <= i < |parts[1..]| ensures Expands(parts[1..][i]) { assert parts[1..][i] == parts[i + 1]; }
        }
        if Expands(parts[0]) && AllExpand(parts[1..]) {
          forall i | 0 <= i < |parts| ensures Expands(parts[i]) {
            if i > 0 { assert parts[i] == parts[1..][i - 1]; }
          }
        }
      }
    }
  }

  /** A relative alias is refused exactly for its length, a dot at an end, or a label that is neither valid
      nor the placeholder. */
  lemma AliasExpandsIff(text: string, host: string)
    ensures ExpandAlias(text, host).Some? <==>
      0 < |text| <= 253 && text[0] != '.' && text[|text| - 1] != '.' && AllExpand(Split(text, '.'))
  {
    hide Split, AllExpand;
    LabelsExpandIff(Split(text, '.'), host);
  }

  /** An alias that ends in the zone's placeholder lands directly below the zone, any other below the UI domain. */
  lemma AliasLands(relative: string, host: string, uiDomain: string, zone: Option<string>)
    ensures ResolveAlias(relative + ".{zone}", host, uiDomain, zone) ==
      if zone.Some? && ExpandAlias(relative, host).Some? then Some(ExpandAlias(relative, host).value + "." + zone.value) else None
    ensures (forall r: string :: relative != r + ".{zone}") ==>
      ResolveAlias(relative, host, uiDomain, zone) ==
        if ExpandAlias(relative, host).Some? then Some(ExpandAlias(relative, host).value + "." + uiDomain) else None
  {
    hide ExpandAlias;
    var text := relative + ".{zone}";
    assert |".{zone}"| == 7 && text[|relative|..] == ".{zone}" && text[..|relative|] == relative;
    if EndsWith(relative, ZONE_SUFFIX) {
      assert relative == relative[..|relative| - 7] + ".{zone}";
    }
  }
}
