/** Cutting a long reply into pieces that fit one Discord message
    (`splitMessage`, `findBestSplitPoint` and `sendLongMessage` in main.go). */
module Segmenter {
  import opened Strings

  /** Discord's per-message ceiling, `MaxMessageLength`. */
  const MaxMessageLength: nat := 2000

  /** Cut markers, highest priority first. */
  const Separators: seq<string> := ["\n\n", ". ", "! ", "? ", "\n", ", ", " "]

  /** Index of the first separator, from `from` on, that occurs in `search`,
      or `|Separators|` when none of them does. */
  function FirstOccurring(search: string, from: nat): (k: nat)
    requires from <= |Separators|
    ensures from <= k <= |Separators|
    ensures forall j :: from <= j < k ==> !Contains(search, Separators[j])
    ensures k < |Separators| ==> Contains(search, Separators[k])
    decreases |Separators| - from
  {
    if from == |Separators| then from
    else if Contains(search, Separators[from]) then from
    else FirstOccurring(search, from + 1)
  }

  /** The cut position `findBestSplitPoint` chooses. */
  function SplitPoint(text: string, maxLength: nat): (i: nat)
    ensures |text| <= maxLength ==> i == |text|
    ensures |text| > maxLength ==> i <= maxLength
    ensures |text| > maxLength && maxLength >= 1 ==> 1 <= i
  {
    if |text| <= maxLength then |text|
    else
      var search := text[..maxLength];
      var k := FirstOccurring(search, 0);
      if k == |Separators| then maxLength
      else
        var sep := Separators[k];
        var at := LastIndex(search, sep);
        assert Occurs(search, sep, at);
        at + |sep|
  }

  /** No separator occurs anywhere in `search`. */
  ghost predicate NoSeparatorIn(search: string) {
    forall k, j :: 0 <= k < |Separators| ==> !Occurs(search, Separators[k], j)
  }

  /** `i` lies just after the last occurrence of separator number `k` in
      `search`, and no separator of higher priority occurs there at all. */
  ghost predicate CutsAfterSeparator(search: string, k: nat, i: int)
    requires k < |Separators|
  {
    var sep := Separators[k];
    && i >= |sep| && Occurs(search, sep, i - |sep|)
    && (forall j :: i - |sep| < j ==> !Occurs(search, sep, j))
    && (forall k', j :: 0 <= k' < k ==> !Occurs(search, Separators[k'], j))
  }

  /** `findBestSplitPoint`: within the first `maxLength` bytes, cut just after
      the last occurrence of the highest-priority separator that occurs there;
      with no separator there, cut hard at `maxLength`. */
  method FindBestSplitPoint(text: string, maxLength: nat) returns (i: nat)
    ensures i == SplitPoint(text, maxLength)
    ensures |text| > maxLength ==>
      || (i == maxLength && NoSeparatorIn(text[..maxLength]))
      || (exists k :: 0 <= k < |Separators| && CutsAfterSeparator(text[..maxLength], k, i))
  {
    if |text| <= maxLength {
      return |text|;
    }
    var searchText := text[..maxLength];
    var s := 0;
    while s < |Separators|
      invariant 0 <= s <= |Separators|
      invariant forall k, j :: 0 <= k < s ==> !Occurs(searchText, Separators[k], j)
    {
      var sep := Separators[s];
      var lastIndex := LastIndex(searchText, sep);
      if lastIndex != -1 {
        assert FirstOccurring(searchText, 0) == s by {
          ContainsIff(searchText, sep);
        }
        i := lastIndex + |sep|;
        assert CutsAfterSeparator(searchText, s, i);
        return;
      }
      ContainsIff(searchText, sep);
      s := s + 1;
    }
    assert FirstOccurring(searchText, 0) == |Separators|;
    i := maxLength;
  }

  /** What the loop of `splitMessage` appends, starting from `remaining`. */
  function SplitRest(remaining: string, maxLength: nat): (parts: seq<string>)
    requires maxLength >= 1
    ensures forall p :: p in parts ==> 1 <= |p| <= maxLength
    decreases |remaining|
  {
    if |remaining| == 0 then []
    else if |remaining| <= maxLength then [remaining]
    else
      var i := SplitPoint(remaining, maxLength);
      var part := TrimSpace(remaining[..i]);
      var rest := TrimSpace(remaining[i..]);
      (if part != "" then [part] else []) + SplitRest(rest, maxLength)
  }

  /** The pieces `splitMessage(text, maxLength)` returns. */
  function Split(text: string, maxLength: nat): (parts: seq<string>)
    requires maxLength >= 1
    ensures |text| <= maxLength ==> parts == [text]
    ensures forall p :: p in parts ==> |p| <= maxLength
    ensures |text| > maxLength ==> forall p :: p in parts ==> p != ""
  {
    if |text| <= maxLength then [text] else SplitRest(text, maxLength)
  }

  /** `splitMessage`: short text is returned whole; longer text is cut at
      `findBestSplitPoint` again and again, each piece and the remainder
      trimmed of white space, empty pieces dropped. */
  method SplitMessage(text: string, maxLength: nat) returns (parts: seq<string>)
    requires maxLength >= 1
    ensures parts == Split(text, maxLength)
  {
    if |text| <= maxLength {
      return [text];
    }
    parts := [];
    var remaining := text;
    while |remaining| > 0
      invariant parts + SplitRest(remaining, maxLength) == SplitRest(text, maxLength)
      decreases |remaining|
    {
      if |remaining| <= maxLength {
        LastPiece(parts, remaining, text, maxLength);
        parts := parts + [remaining];
        remaining := "";
        break;
      }
      var splitIndex := FindBestSplitPoint(remaining, maxLength);
      var part := TrimSpace(remaining[..splitIndex]);
      var rest := TrimSpace(remaining[splitIndex..]);
      CutStep(parts, remaining, text, maxLength, splitIndex);
      if part != "" {
        parts := parts + [part];
      }
      remaining := rest;
    }
    assert parts + SplitRest(remaining, maxLength) == parts;
  }

  /** The last round of `splitMessage`: a remainder that fits is the last
      piece. */
  lemma LastPiece(done: seq<string>, remaining: string, text: string, maxLength: nat)
    requires maxLength >= 1 && 0 < |remaining| <= maxLength
    requires done + SplitRest(remaining, maxLength) == SplitRest(text, maxLength)
    ensures (done + [remaining]) + SplitRest("", maxLength) == SplitRest(text, maxLength)
  {
    assert SplitRest(remaining, maxLength) == [remaining];
  }

  /** One round of `splitMessage` keeps the pieces found so far followed by
      the pieces of the remainder equal to the pieces of the whole text. */
  lemma CutStep(done: seq<string>, remaining: string, text: string, maxLength: nat, i: nat)
    requires maxLength >= 1 && |remaining| > maxLength
    requires i == SplitPoint(remaining, maxLength)
    requires done + SplitRest(remaining, maxLength) == SplitRest(text, maxLength)
    ensures |TrimSpace(remaining[i..])| < |remaining|
    ensures (if TrimSpace(remaining[..i]) != "" then done + [TrimSpace(remaining[..i])] else done)
      + SplitRest(TrimSpace(remaining[i..]), maxLength) == SplitRest(text, maxLength)
  {
    var part := TrimSpace(remaining[..i]);
    var rest := TrimSpace(remaining[i..]);
    var piece: seq<string> := if part != "" then [part] else [];
    SplitRestCut(remaining, maxLength, i, part, rest);
    ConcatAssoc(done, piece, SplitRest(rest, maxLength));
    assert (if part != "" then done + [part] else done) == done + piece;
  }

  lemma ConcatAssoc(a: seq<string>, b: seq<string>, c: seq<string>)
    ensures (a + b) + c == a + (b + c)
  {
  }

  /** `gaps[0] + parts[0] + gaps[1] + … + parts[n-1] + gaps[n]`. */
  function Weave(gaps: seq<string>, parts: seq<string>): string
    requires |gaps| == |parts| + 1
    decreases |parts|
  {
    if parts == [] then gaps[0] else gaps[0] + parts[0] + Weave(gaps[1..], parts[1..])
  }

  lemma AllSpaceConcat(a: string, b: string)
    requires AllSpace(a) && AllSpace(b)
    ensures AllSpace(a + b)
  {
    forall i | 0 <= i < |a + b| ensures IsSpace((a + b)[i]) {
      if i >= |a| {
        assert (a + b)[i] == b[i - |a|];
      }
    }
  }

  lemma Regroup(a: string, b: string, c: string, d: string, e: string, f: string)
    ensures a + b + ((c + d) + (e + f)) == (a + b + c) + (d + e + f)
  {
  }

  lemma RegroupTail(c: string, d: string, e: string, f: string)
    ensures (c + d) + (e + f) == c + (d + e + f)
  {
  }

  /** Widening the first gap widens the woven text at the front. */
  lemma WeavePrepend(x: string, gaps: seq<string>, parts: seq<string>)
    requires |gaps| == |parts| + 1
    ensures Weave([x + gaps[0]] + gaps[1..], parts) == x + Weave(gaps, parts)
  {
    var g := [x + gaps[0]] + gaps[1..];
    assert g[1..] == gaps[1..];
  }

  /** Widening the last gap widens the woven text at the back. */
  lemma {:induction false} WeaveAppend(gaps: seq<string>, parts: seq<string>, y: string)
    requires |gaps| == |parts| + 1
    ensures Weave(gaps[..|parts|] + [gaps[|parts|] + y], parts) == Weave(gaps, parts) + y
    decreases |parts|
  {
    var g := gaps[..|parts|] + [gaps[|parts|] + y];
    if parts != [] {
      assert g[0] == gaps[0];
      assert g[1..] == gaps[1..][..|parts[1..]|] + [gaps[1..][|parts[1..]|] + y];
      WeaveAppend(gaps[1..], parts[1..], y);
    }
  }

  /** One more piece in front: `leadH + part + trailH + leadT + rest + trailT`
      woven from the gaps of `rest`, widened with white space. */
  lemma WeaveWithPiece(leadH: string, part: string, trailH: string, leadT: string, rest: string,
                       trailT: string, g: seq<string>, later: seq<string>) returns (gaps: seq<string>)
    requires AllSpace(leadH) && AllSpace(trailH) && AllSpace(leadT) && AllSpace(trailT)
    requires |g| == |later| + 1 && (forall x :: x in g ==> AllSpace(x)) && Weave(g, later) == rest
    ensures |gaps| == |later| + 2 && forall x :: x in gaps ==> AllSpace(x)
    ensures Weave(gaps, [part] + later) == (leadH + part + trailH) + (leadT + rest + trailT)
  {
    WeaveAppend(g, later, trailT);
    var g1 := g[..|later|] + [g[|later|] + trailT];
    AllSpaceConcat(g[|later|], trailT);
    assert forall x :: x in g1 ==> AllSpace(x);
    var front := trailH + leadT;
    AllSpaceConcat(trailH, leadT);
    WeavePrepend(front, g1, later);
    var g2 := [front + g1[0]] + g1[1..];
    AllSpaceConcat(front, g1[0]);
    assert forall x :: x in g2 ==> AllSpace(x);
    gaps := [leadH] + g2;
    assert gaps[1..] == g2;
    assert ([part] + later)[1..] == later;
    calc {
      Weave(gaps, [part] + later);
      leadH + part + Weave(g2, later);
      leadH + part + (front + (rest + trailT));
      { Regroup(leadH, part, trailH, leadT, rest, trailT); }
      (leadH + part + trailH) + (leadT + rest + trailT);
    }
  }

  /** No piece in front: the white-space-only `head` joins the first gap. */
  lemma WeaveWithoutPiece(head: string, leadT: string, rest: string, trailT: string,
                          g: seq<string>, later: seq<string>) returns (gaps: seq<string>)
    requires AllSpace(head) && AllSpace(leadT) && AllSpace(trailT)
    requires |g| == |later| + 1 && (forall x :: x in g ==> AllSpace(x)) && Weave(g, later) == rest
    ensures |gaps| == |later| + 1 && forall x :: x in gaps ==> AllSpace(x)
    ensures Weave(gaps, later) == head + (leadT + rest + trailT)
  {
    WeaveAppend(g, later, trailT);
    var g1 := g[..|later|] + [g[|later|] + trailT];
    AllSpaceConcat(g[|later|], trailT);
    assert forall x :: x in g1 ==> AllSpace(x);
    var front := head + leadT;
    AllSpaceConcat(head, leadT);
    WeavePrepend(front, g1, later);
    gaps := [front + g1[0]] + g1[1..];
    AllSpaceConcat(front, g1[0]);
    assert forall x :: x in gaps ==> AllSpace(x);
    RegroupTail(head, leadT, rest, trailT);
  }

  /** The pieces of `SplitRest`, put back between white-space-only gaps,
      give back `remaining` exactly: cutting and trimming only ever drop
      white space. */
  lemma {:induction false} SplitRestReassembles(remaining: string, maxLength: nat) returns (gaps: seq<string>)
    requires maxLength >= 1
    ensures |gaps| == |SplitRest(remaining, maxLength)| + 1
    ensures forall g :: g in gaps ==> AllSpace(g)
    ensures Weave(gaps, SplitRest(remaining, maxLength)) == remaining
    decreases |remaining|
  {
    if |remaining| == 0 {
      gaps := [remaining];
    } else if |remaining| <= maxLength {
      gaps := ["", ""];
      assert Weave(gaps, [remaining]) == "" + remaining + Weave([""], []);
    } else {
      var i := SplitPoint(remaining, maxLength);
      var head, tail := remaining[..i], remaining[i..];
      assert remaining == head + tail;
      var part := TrimSpace(head);
      var rest := TrimSpace(tail);
      var leadH, trailH := TrimSpaceParts(head);
      var leadT, trailT := TrimSpaceParts(tail);
      var later := SplitRest(rest, maxLength);
      var g := SplitRestReassembles(rest, maxLength);
      if part != "" {
        assert SplitRest(remaining, maxLength) == [part] + later;
        gaps := WeaveWithPiece(leadH, part, trailH, leadT, rest, trailT, g, later);
      } else {
        assert SplitRest(remaining, maxLength) == later;
        gaps := WeaveWithoutPiece(head, leadT, rest, trailT, g, later);
      }
    }
  }

  /** Reconstruction: `text` is `w0 + p1 + w1 + … + pn + wn` where `p1 … pn`
      are the pieces of `Split(text, maxLength)` and every `wi` is white
      space only. */
  lemma SplitReassembles(text: string, maxLength: nat) returns (gaps: seq<string>)
    requires maxLength >= 1
    ensures |gaps| == |Split(text, maxLength)| + 1
    ensures forall g :: g in gaps ==> AllSpace(g)
    ensures Weave(gaps, Split(text, maxLength)) == text
  {
    if |text| <= maxLength {
      gaps := ["", ""];
      assert Weave(gaps, [text]) == "" + text + Weave([""], []);
    } else {
      gaps := SplitRestReassembles(text, maxLength);
    }
  }

  /** `parts`, each but the last followed by a blank line. */
  function WithBreaks(parts: seq<string>): (msgs: seq<string>)
    ensures |msgs| == |parts|
    ensures forall i :: 0 <= i < |parts| - 1 ==> msgs[i] == parts[i] + "\n\n"
    ensures |parts| > 0 ==> msgs[|parts| - 1] == parts[|parts| - 1]
  {
    if |parts| <= 1 then parts else [parts[0] + "\n\n"] + WithBreaks(parts[1..])
  }

  /** The messages `sendLongMessage` hands to the transport, in order: the
      message itself when it fits, otherwise the pieces of `Split`, all but the
      last followed by a blank line. */
  function Outgoing(message: string): (msgs: seq<string>)
  {
    if |message| <= MaxMessageLength then [message]
    else WithBreaks(Split(message, MaxMessageLength))
  }

  /** The first send, among the first `n`, that the transport rejects, or
      `n` when it rejects none of them. */
  function FirstRejected(failing: set<nat>, n: nat): (k: nat)
    ensures k <= n
    ensures forall j :: 0 <= j < k ==> j !in failing
    ensures k < n ==> k in failing
  {
    if n == 0 then 0
    else
      var k := FirstRejected(failing, n - 1);
      if k < n - 1 then k else if n - 1 in failing then n - 1 else n
  }

  /** How many of `n` messages are handed to the transport: all of them, or
      up to and including the first rejected one. */
  function Attempted(failing: set<nat>, n: nat): (count: nat)
    ensures count <= n
  {
    var k := FirstRejected(failing, n);
    if k < n then k + 1 else n
  }

  /** `sendLongMessage`; `failing` holds the (0-based) sends the transport
      rejects. Sending stops at the first rejected send. */
  method SendLongMessage(message: string, failing: set<nat>) returns (sent: seq<string>, ok: bool)
    ensures ok <==> FirstRejected(failing, |Outgoing(message)|) == |Outgoing(message)|
    ensures sent == Outgoing(message)[..Attempted(failing, |Outgoing(message)|)]
  {
    if |message| <= MaxMessageLength {
      sent := [message];
      ok := 0 !in failing;
    } else {
      var parts := SplitMessage(message, MaxMessageLength);
      sent, ok := SendParts(parts, failing);
    }
  }

  /** The loop of `sendLongMessage` over the pieces. */
  method SendParts(parts: seq<string>, failing: set<nat>) returns (sent: seq<string>, ok: bool)
    ensures ok <==> FirstRejected(failing, |parts|) == |parts|
    ensures sent == WithBreaks(parts)[..Attempted(failing, |parts|)]
  {
    ghost var out := WithBreaks(parts);
    ghost var k := FirstRejected(failing, |parts|);
    sent := [];
    var i := 0;
    while i < |parts|
      invariant 0 <= i <= |parts| && i <= k
      invariant sent == out[..i]
    {
      var messageToSend := parts[i];
      if i < |parts| - 1 {
        messageToSend := messageToSend + "\n\n";
      }
      assert messageToSend == out[i];
      assert out[..i + 1] == out[..i] + [out[i]];
      sent := sent + [messageToSend];
      if i in failing {
        assert k == i;
        return sent, false;
      }
      i := i + 1;
    }
    ok := true;
  }

  /** Only a message over the limit is ever split; a message that fits goes
      out as it is, in one send. */
  lemma {:induction false} OutgoingOfShortMessage(message: string)
    requires |message| <= MaxMessageLength
    ensures Outgoing(message) == [message]
  {
  }

  /** A message of `n` copies of one letter. */
  function Letters(n: nat): (s: string)
    ensures |s| == n && forall i :: 0 <= i < n ==> s[i] == 'a'
  {
    seq(n, _ => 'a')
  }

  lemma NoSeparatorInLetters(n: nat)
    ensures NoSeparatorIn(Letters(n))
  {
    var s := Letters(n);
    forall k, j | 0 <= k < |Separators| ensures !Occurs(s, Separators[k], j) {
      var sep := Separators[k];
      assert |sep| >= 1 && sep[0] != 'a';
      if 0 <= j && j + |sep| <= |s| {
        assert s[j..j + |sep|][0] == s[j];
      }
    }
  }

  /** As written, a piece that is cut hard at 2000 bytes goes out with the
      blank line appended: 2002 bytes, over the limit the cut was meant to
      respect. */
  lemma OversizedChunkExample()
    ensures Outgoing(Letters(4000)) == [Letters(2000) + "\n\n", Letters(2000)]
    ensures |Outgoing(Letters(4000))[0]| == MaxMessageLength + 2
  {
    var half := Letters(2000);
    assert Letters(4000) == half + half;
    NoSeparatorInLetters(2000);
    HardCutTwice(half);
  }

  /** A text of twice the limit with no separator in its first half, whose
      halves have no white space at their edges, is cut hard in the middle. */
  lemma HardCutTwice(h: string)
    requires |h| == MaxMessageLength && NoSeparatorIn(h) && h != [] && IsTrimmed(h)
    ensures Outgoing(h + h) == [h + "\n\n", h]
  {
    var text := h + h;
    assert text[..MaxMessageLength] == h && text[MaxMessageLength..] == h;
    HardCut(text, MaxMessageLength);
    TrimSpaceOfTrimmed(h);
    SplitRestCut(text, MaxMessageLength, MaxMessageLength, h, h);
    assert SplitRest(h, MaxMessageLength) == [h];
    assert Split(text, MaxMessageLength) == [h, h];
    WithBreaksPair(h, h);
  }

  /** With no separator in the first `maxLength` bytes the cut is hard. */
  lemma HardCut(text: string, maxLength: nat)
    requires |text| > maxLength && NoSeparatorIn(text[..maxLength])
    ensures SplitPoint(text, maxLength) == maxLength
  {
    var search := text[..maxLength];
    var k := FirstOccurring(search, 0);
    if k < |Separators| {
      ContainsIff(search, Separators[k]);
      assert false;
    }
  }

  /** One round of `SplitRest`, with the cut and the trimmed piece and
      remainder named. */
  lemma SplitRestCut(text: string, maxLength: nat, i: nat, part: string, rest: string)
    requires maxLength >= 1 && |text| > maxLength
    requires SplitPoint(text, maxLength) == i
    requires TrimSpace(text[..i]) == part && TrimSpace(text[i..]) == rest
    ensures SplitRest(text, maxLength) == (if part != "" then [part] else []) + SplitRest(rest, maxLength)
  {
  }

  lemma WithBreaksPair(a: string, b: string)
    ensures WithBreaks([a, b]) == [a + "\n\n", b]
  {
    assert [a, b][1..] == [b];
  }

  /** `sendLongMessage` with the evident intent kept: pieces are cut two
      bytes short of the limit, so that even with the blank line appended
      every message fits. */
  function OutgoingFixed(message: string): (msgs: seq<string>)
  {
    if |message| <= MaxMessageLength then [message]
    else WithBreaks(Split(message, MaxMessageLength - 2))
  }

  /** `sendLongMessage` with pieces cut two bytes short of the limit: every
      message handed to the transport fits it. */
  method SendLongMessageFixed(message: string, failing: set<nat>) returns (sent: seq<string>, ok: bool)
    ensures ok <==> FirstRejected(failing, |OutgoingFixed(message)|) == |OutgoingFixed(message)|
    ensures sent == OutgoingFixed(message)[..Attempted(failing, |OutgoingFixed(message)|)]
    ensures forall i :: 0 <= i < |sent| ==> |sent[i]| <= MaxMessageLength
  {
    OutgoingFixedFits(message);
    if |message| <= MaxMessageLength {
      sent := [message];
      ok := 0 !in failing;
    } else {
      var parts := SplitMessage(message, MaxMessageLength - 2);
      sent, ok := SendParts(parts, failing);
    }
  }

  /** Pieces two bytes short of a limit still fit it with the blank line
      appended. */
  lemma WithBreaksFit(parts: seq<string>, limit: nat)
    requires limit >= 2
    requires forall i :: 0 <= i < |parts| ==> |parts[i]| <= limit - 2
    ensures forall i :: 0 <= i < |parts| ==> |WithBreaks(parts)[i]| <= limit
  {
  }

  /** Every message of `OutgoingFixed` fits the transport limit. */
  lemma OutgoingFixedFits(message: string)
    ensures forall i :: 0 <= i < |OutgoingFixed(message)| ==> |OutgoingFixed(message)[i]| <= MaxMessageLength
  {
    if |message| > MaxMessageLength {
      var parts := Split(message, MaxMessageLength - 2);
      assert forall i :: 0 <= i < |parts| ==> |parts[i]| <= MaxMessageLength - 2 by {
        forall i | 0 <= i < |parts| ensures |parts[i]| <= MaxMessageLength - 2 {
          assert parts[i] in parts;
        }
      }
      WithBreaksFit(parts, MaxMessageLength);
      assert OutgoingFixed(message) == WithBreaks(parts);
    }
  }

  /** In the worked example the cut falls just after ". ". */
  lemma ExampleSplitPoint()
    ensures SplitPoint("Hello world. This is a test.", 20) == 13
  {
    var text := "Hello world. This is a test.";
    var search := text[..20];
    assert search == "Hello world. This is";
    forall j ensures !Occurs(search, "\n\n", j) {
      if 0 <= j && j + 2 <= |search| { assert search[j..j + 2][0] == search[j]; }
    }
    ContainsIff(search, "\n\n");
    assert Occurs(search, ". ", 11);
    forall j | 11 < j ensures !Occurs(search, ". ", j) {
      if j + 2 <= |search| { assert search[j..j + 2][0] == search[j]; }
    }
    assert LastIndex(search, ". ") == 11;
    assert FirstOccurring(search, 0) == 1;
  }

  lemma ExampleFirstPiece()
    ensures TrimSpace("Hello world. ") == "Hello world."
  {
    var head := "Hello world. ";
    assert LeadLen(head) == 0;
    assert TrimEnd(head, 13) == TrimEnd(head, 12) == 12;
    assert head[0..12] == "Hello world.";
  }

  /** The worked example: `splitMessage("Hello world. This is a test.", 20)`. */
  lemma SplitExample()
    ensures Split("Hello world. This is a test.", 20) == ["Hello world.", "This is a test."]
  {
    var text, tail := "Hello world. This is a test.", "This is a test.";
    calc {
      Split(text, 20);
      { assert |text| == 28; }
      SplitRest(text, 20);
      { ExampleFirstStep(); }
      ["Hello world."] + SplitRest(tail, 20);
      { ExampleLastStep(); }
      ["Hello world."] + [tail];
    }
  }

  lemma ExampleLastStep()
    ensures SplitRest("This is a test.", 20) == ["This is a test."]
  {
  }

  lemma ExampleFirstStep()
    ensures SplitRest("Hello world. This is a test.", 20) == ["Hello world."] + SplitRest("This is a test.", 20)
  {
    ExampleHalves();
    ExampleSplitPoint();
    ExampleFirstPiece();
    TrimSpaceOfTrimmed("This is a test.");
    SplitRestCut("Hello world. This is a test.", 20, 13, "Hello world.", "This is a test.");
  }

  lemma ExampleHalves()
    ensures "Hello world. This is a test."[..13] == "Hello world. "
    ensures "Hello world. This is a test."[13..] == "This is a test."
  {
    var head, tail := "Hello world. ", "This is a test.";
    assert "Hello world. This is a test." == head + tail;
  }
}
