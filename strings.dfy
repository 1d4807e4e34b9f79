/** The few operations of Go's `strings` package that the bot relies on.

    Go strings are byte sequences; here a `string` stands for that byte
    sequence, one `char` per byte. `strings.TrimSpace` trims Unicode white
    space; this model trims the six ASCII white-space bytes only. */
module Strings {

  /** ASCII white space as Go's `strings.TrimSpace` sees it: tab, newline,
      vertical tab, form feed, carriage return and space. */
  predicate IsSpace(c: char) {
    c == ' ' || c == '\t' || c == '\n' || c == '\r' || c == '\U{000B}' || c == '\U{000C}'
  }

  predicate AllSpace(s: string) {
    forall i :: 0 <= i < |s| ==> IsSpace(s[i])
  }

  /** A string with no white space at either end. */
  predicate IsTrimmed(s: string) {
    s == [] || (!IsSpace(s[0]) && !IsSpace(s[|s| - 1]))
  }

  /** Length of the longest all-white-space prefix. */
  function LeadLen(s: string): (n: nat)
    ensures n <= |s| && AllSpace(s[..n])
    ensures n < |s| ==> !IsSpace(s[n])
  {
    if s == [] || !IsSpace(s[0]) then 0
    else
      var m := LeadLen(s[1..]);
      assert s[..m + 1] == [s[0]] + s[1..][..m];
      m + 1
  }

  /** The start of the all-white-space run that ends just before index `k`. */
  function TrimEnd(s: string, k: nat): (e: nat)
    requires k <= |s|
    ensures e <= k
    ensures forall j :: e <= j < k ==> IsSpace(s[j])
    ensures e > 0 ==> !IsSpace(s[e - 1])
    decreases k
  {
    if k == 0 || !IsSpace(s[k - 1]) then k else TrimEnd(s, k - 1)
  }

  /** `strings.TrimSpace`: drop white space at both ends. */
  function TrimSpace(s: string): (r: string)
    ensures |r| <= |s|
    ensures LeadLen(s) + |r| <= |s| && r == s[LeadLen(s)..LeadLen(s) + |r|]
    ensures AllSpace(s[..LeadLen(s)]) && AllSpace(s[LeadLen(s) + |r|..])
    ensures IsTrimmed(r)
    ensures r == [] <==> AllSpace(s)
  {
    var a := LeadLen(s);
    if a == |s| then
      assert s[..a] == s;
      []
    else
      var e := TrimEnd(s, |s|);
      assert a < e by {
        assert !IsSpace(s[a]);
      }
      assert !AllSpace(s) by {
        assert !IsSpace(s[a]);
      }
      s[a..e]
  }

  lemma ThreeSlices(s: string, a: nat, b: nat)
    requires a <= b <= |s|
    ensures s == s[..a] + s[a..b] + s[b..]
  {
  }

  /** `s` is its trimmed form with white space on either side. */
  lemma TrimSpaceParts(s: string) returns (lead: string, trail: string)
    ensures s == lead + TrimSpace(s) + trail
    ensures AllSpace(lead) && AllSpace(trail)
  {
    var a := LeadLen(s);
    var r := TrimSpace(s);
    lead, trail := s[..a], s[a + |r|..];
    ThreeSlices(s, a, a + |r|);
  }

  /** A trimmed string is left as it is by `TrimSpace`. */
  lemma TrimSpaceOfTrimmed(s: string)
    requires IsTrimmed(s)
    ensures TrimSpace(s) == s
  {
    if s != [] {
      assert LeadLen(s) == 0;
      assert TrimEnd(s, |s|) == |s|;
    }
  }

  predicate HasPrefix(s: string, prefix: string) {
    |prefix| <= |s| && s[..|prefix|] == prefix
  }

  /** `strings.TrimPrefix`: remove one leading `prefix` if present. */
  function TrimPrefix(s: string, prefix: string): (r: string)
    ensures HasPrefix(s, prefix) ==> s == prefix + r
    ensures !HasPrefix(s, prefix) ==> r == s
  {
    if HasPrefix(s, prefix) then s[|prefix|..] else s
  }

  /** `sub` occurs in `s` starting at byte `i`. */
  predicate Occurs(s: string, sub: string, i: int) {
    0 <= i && i + |sub| <= |s| && s[i..i + |sub|] == sub
  }

  /** Last occurrence of `sub` at a position no greater than `i`, or -1. */
  function LastIndexFrom(s: string, sub: string, i: int): (r: int)
    requires i + |sub| <= |s|
    ensures r == -1 || (0 <= r <= i && Occurs(s, sub, r))
    ensures forall j :: r < j <= i ==> !Occurs(s, sub, j)
    decreases if i < 0 then 0 else i + 1
  {
    if i < 0 then -1
    else if s[i..i + |sub|] == sub then i
    else LastIndexFrom(s, sub, i - 1)
  }

  /** `strings.LastIndex`: the largest index at which `sub` occurs, or -1
      (for an empty `sub`, the length of `s`). */
  function LastIndex(s: string, sub: string): (r: int)
    ensures r == -1 || (0 <= r && Occurs(s, sub, r))
    ensures forall j :: r < j ==> !Occurs(s, sub, j)
  {
    if |s| < |sub| then -1 else LastIndexFrom(s, sub, |s| - |sub|)
  }

  /** `strings.Contains`. */
  predicate Contains(s: string, sub: string) {
    LastIndex(s, sub) != -1
  }

  lemma ContainsIff(s: string, sub: string)
    ensures Contains(s, sub) <==> exists i :: Occurs(s, sub, i)
  {
  }

  /** `strings.Join`. */
  function Join(parts: seq<string>, sep: string): string
  {
    if parts == [] then ""
    else if |parts| == 1 then parts[0]
    else parts[0] + sep + Join(parts[1..], sep)
  }

  function LowerChar(c: char): char {
    if 'A' <= c <= 'Z' then (c as int + 32) as char else c
  }

  /** `strings.ToLower`, restricted to ASCII letters. */
  function ToLower(s: string): (r: string)
    ensures |r| == |s|
    ensures forall i :: 0 <= i < |s| ==> r[i] == LowerChar(s[i])
  {
    seq(|s|, i requires 0 <= i < |s| => LowerChar(s[i]))
  }

  /** Lower-casing twice changes nothing more. */
  lemma ToLowerIdempotent(s: string)
    ensures ToLower(ToLower(s)) == ToLower(s)
  {
    var once := ToLower(s);
    assert forall i :: 0 <= i < |s| ==> LowerChar(once[i]) == once[i];
  }
}
