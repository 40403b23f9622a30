/** The line diff shown after an edit: one changed region between a common prefix and a common
    suffix, with two lines of context on each side and the number of lines left out. */
module Diff {
  import opened Wrappers
  import opened Text
  import Decimal

  datatype DiffLine = Context(text: string) | Removed(text: string) | Added(text: string)

  const CONTEXT_LINES := 2

  // ---------------------------------------------------------------- the algorithm

  function Common(a: seq<string>, b: seq<string>): (n: nat)
    ensures n <= |a| && n <= |b| && (n == |a| || n == |b|)
  {
    if |a| < |b| then |a| else |b|
  }

  /** The end of the longest run of equal lines from position `k`. */
  function Prefix(a: seq<string>, b: seq<string>, k: nat): (n: nat)
    requires k <= Common(a, b)
    ensures k <= n <= Common(a, b)
    ensures forall i :: k <= i < n ==> a[i] == b[i]
    ensures n < Common(a, b) ==> a[n] != b[n]
    decreases |a| - k
  {
    if k < Common(a, b) && a[k] == b[k] then Prefix(a, b, k + 1) else k
  }

  function FromEnd(a: seq<string>, i: nat): string
    requires i < |a|
  {
    a[|a| - 1 - i]
  }

  /** How many lines are equal at the end, from the `k`th last on and outside the first `p`. */
  function Suffix(a: seq<string>, b: seq<string>, p: nat, k: nat): (n: nat)
    requires p + k <= Common(a, b)
    ensures k <= n <= Common(a, b) - p
    ensures forall i :: k <= i < n ==> FromEnd(a, i) == FromEnd(b, i)
    ensures n < Common(a, b) - p ==> FromEnd(a, n) != FromEnd(b, n)
    decreases |a| - k
  {
    if k < Common(a, b) - p && FromEnd(a, k) == FromEnd(b, k) then Suffix(a, b, p, k + 1) else k
  }

  function BeforeMarker(n: nat): string {
    "… (" + Decimal.Print(n) + " linhas antes)"
  }

  function AfterMarker(n: nat): string {
    "… (" + Decimal.Print(n) + " linhas depois)"
  }

  function Contexts(lines: seq<string>): (r: seq<DiffLine>)
    ensures |r| == |lines| && forall i :: 0 <= i < |r| ==> r[i] == Context(lines[i])
  {
    seq(|lines|, i requires 0 <= i < |lines| => Context(lines[i]))
  }

  function Removals(lines: seq<string>): (r: seq<DiffLine>)
    ensures |r| == |lines| && forall i :: 0 <= i < |r| ==> r[i] == Removed(lines[i])
  {
    seq(|lines|, i requires 0 <= i < |lines| => Removed(lines[i]))
  }

  function Additions(lines: seq<string>): (r: seq<DiffLine>)
    ensures |r| == |lines| && forall i :: 0 <= i < |r| ==> r[i] == Added(lines[i])
  {
    seq(|lines|, i requires 0 <= i < |lines| => Added(lines[i]))
  }

  /** One changed region and what surrounds it. */
  datatype Hunk = Hunk(skipped: nat, lead: seq<string>, removed: seq<string>, added: seq<string>,
                       trail: seq<string>, rest: nat)

  /** The region between the longest common prefix and, behind it, the longest common suffix, with
      at most two lines of context on each side. */
  function HunkOf(a: seq<string>, b: seq<string>): (h: Hunk) {
    var p := Prefix(a, b, 0);
    var q := Suffix(a, b, p, 0);
    var start := if p < CONTEXT_LINES then 0 else p - CONTEXT_LINES;
    var end := if |a| - q + CONTEXT_LINES < |a| then |a| - q + CONTEXT_LINES else |a|;
    Hunk(start, a[start..p], a[p..|a| - q], b[p..|b| - q], a[|a| - q..end], |a| - end)
  }

  /** How a hunk is written: a marker only where lines are left out. */
  function Written(h: Hunk): seq<DiffLine> {
    (if h.skipped > 0 then [Context(BeforeMarker(h.skipped))] else [])
    + Contexts(h.lead) + Removals(h.removed) + Additions(h.added) + Contexts(h.trail)
    + (if h.rest > 0 then [Context(AfterMarker(h.rest))] else [])
  }

  function DiffOf(a: seq<string>, b: seq<string>): seq<DiffLine> {
    var h := HunkOf(a, b);
    if h.removed == [] && h.added == [] then [] else Written(h)
  }

  method LineDiff(before: string, after: string) returns (out: seq<DiffLine>)
    ensures out == DiffOf(Lines(before), Lines(after))
  {
    hide Lines, Written, Prefix, Suffix;
    var a, b := Lines(before), Lines(after);
    var prefix, suffix := Scan(a, b);
    var removed, added := a[prefix..|a| - suffix], b[prefix..|b| - suffix];
    var start := if prefix < CONTEXT_LINES then 0 else prefix - CONTEXT_LINES;
    var regionEnd := |a| - suffix;
    var end := if regionEnd + CONTEXT_LINES < |a| then regionEnd + CONTEXT_LINES else |a|;
    var h := Hunk(start, a[start..prefix], removed, added, a[regionEnd..end], |a| - end);
    assert h == HunkOf(a, b);
    if removed == [] && added == [] {
      return [];
    }
    out := Write(h);
  }

  /** Both scans, as they run. */
  method Scan(a: seq<string>, b: seq<string>) returns (prefix: nat, suffix: nat)
    ensures prefix == Prefix(a, b, 0) && suffix == Suffix(a, b, prefix, 0)
  {
    hide Prefix, Suffix, FromEnd;
    var maxCommon := if |a| < |b| then |a| else |b|;
    prefix := 0;
    while prefix < maxCommon && a[prefix] == b[prefix]
      invariant prefix <= maxCommon && Prefix(a, b, 0) == Prefix(a, b, prefix)
    {
      PrefixStep(a, b, prefix);
      prefix := prefix + 1;
    }
    PrefixStep(a, b, prefix);
    suffix := 0;
    while suffix < maxCommon - prefix && a[|a| - 1 - suffix] == b[|b| - 1 - suffix]
      invariant suffix <= maxCommon - prefix && Suffix(a, b, prefix, 0) == Suffix(a, b, prefix, suffix)
    {
      SuffixStep(a, b, prefix, suffix);
      suffix := suffix + 1;
    }
    SuffixStep(a, b, prefix, suffix);
  }

  lemma PrefixStep(a: seq<string>, b: seq<string>, k: nat)
    requires k <= Common(a, b)
    ensures Prefix(a, b, k) == if k < Common(a, b) && a[k] == b[k] then Prefix(a, b, k + 1) else k
  {
  }

  lemma SuffixStep(a: seq<string>, b: seq<string>, p: nat, k: nat)
    requires p + k <= Common(a, b)
    ensures Suffix(a, b, p, k) ==
            if k < Common(a, b) - p && a[|a| - 1 - k] == b[|b| - 1 - k] then Suffix(a, b, p, k + 1) else k
  {
  }

  /** The output, entry by entry. */
  method Write(h: Hunk) returns (out: seq<DiffLine>)
    ensures out == Written(h)
  {
    hide Contexts, Removals, Additions, BeforeMarker, AfterMarker;
    out := [];
    if h.skipped > 0 {
      out := out + [Context(BeforeMarker(h.skipped))];
    }
    out := PushContext(out, h.lead);
    out := PushRemoved(out, h.removed);
    out := PushAdded(out, h.added);
    out := PushContext(out, h.trail);
    if h.rest > 0 {
      out := out + [Context(AfterMarker(h.rest))];
    }
  }

  method PushContext(before: seq<DiffLine>, lines: seq<string>) returns (out: seq<DiffLine>)
    ensures out == before + Contexts(lines)
  {
    out := before;
    for i := 0 to |lines|
      invariant out == before + Contexts(lines[..i])
    {
      out := out + [Context(lines[i])];
    }
    assert lines[..|lines|] == lines;
  }

  method PushRemoved(before: seq<DiffLine>, lines: seq<string>) returns (out: seq<DiffLine>)
    ensures out == before + Removals(lines)
  {
    out := before;
    for i := 0 to |lines|
      invariant out == before + Removals(lines[..i])
    {
      out := out + [Removed(lines[i])];
    }
    assert lines[..|lines|] == lines;
  }

  method PushAdded(before: seq<DiffLine>, lines: seq<string>) returns (out: seq<DiffLine>)
    ensures out == before + Additions(lines)
  {
    out := before;
    for i := 0 to |lines|
      invariant out == before + Additions(lines[..i])
    {
      out := out + [Added(lines[i])];
    }
    assert lines[..|lines|] == lines;
  }

  // ---------------------------------------------------------------- reading a diff back

  /** The number in a marker that ends in `tail`. */
  function MarkerNumber(text: string, tail: string): Option<nat> {
    var head := "… (";
    if |text| <= |head| + |tail| || !(head <= text) || text[|text| - |tail|..] != tail then None
    else
      var digits := text[|head|..|text| - |tail|];
      if Decimal.AllDigits(digits) then Some(Decimal.Value(digits)) else None
  }

  /** How many entries in front are context. */
  function Leading(d: seq<DiffLine>): (n: nat)
    ensures n <= |d|
  {
    if d == [] || !d[0].Context? then 0 else 1 + Leading(d[1..])
  }

  /** How many entries at the end are context. */
  function Trailing(d: seq<DiffLine>): (n: nat)
    ensures n <= |d|
  {
    if d == [] || !d[|d| - 1].Context? then 0 else 1 + Trailing(d[..|d| - 1])
  }

  function Removing(d: seq<DiffLine>): (n: nat)
    ensures n <= |d|
  {
    if d == [] || !d[0].Removed? then 0 else 1 + Removing(d[1..])
  }

  function Texts(d: seq<DiffLine>): (r: seq<string>)
    ensures |r| == |d| && forall i :: 0 <= i < |d| ==> r[i] == d[i].text
  {
    seq(|d|, i requires 0 <= i < |d| => d[i].text)
  }

  /** A diff read back from its entries alone. A third entry of context in front (at the end) means
      that the first (last) one is a marker. */
  function ReadDiff(d: seq<DiffLine>): Option<Hunk> {
    var lead, trail := Leading(d), Trailing(d);
    if lead == |d| || lead + trail > |d| then None
    else
      var middle := d[lead..|d| - trail];
      var r := Removing(middle);
      var skipped := if lead > CONTEXT_LINES then MarkerNumber(d[0].text, " linhas antes)") else Some(0);
      var rest := if trail > CONTEXT_LINES then MarkerNumber(d[|d| - 1].text, " linhas depois)") else Some(0);
      if skipped.None? || rest.None? then None
      else
        Some(Hunk(skipped.value, Texts(d[if lead > CONTEXT_LINES then 1 else 0..lead]),
                  Texts(middle[..r]), Texts(middle[r..]),
                  Texts(d[|d| - trail..|d| - if trail > CONTEXT_LINES then 1 else 0]), rest.value))
  }

  function Old(h: Hunk): seq<string> {
    h.lead + h.removed + h.trail
  }

  function New(h: Hunk): seq<string> {
    h.lead + h.added + h.trail
  }

  /** A hunk applied to the lines it was made for; nothing if they are not those lines. */
  function Patch(h: Hunk, lines: seq<string>): Option<seq<string>> {
    var end := |lines| - h.rest;
    if h.skipped + |Old(h)| == end && lines[h.skipped..end] == Old(h)
    then Some(lines[..h.skipped] + New(h) + lines[end..])
    else None
  }

  function Reversed(h: Hunk): Hunk {
    h.(removed := h.added, added := h.removed)
  }

  // ---------------------------------------------------------------- the diff is an exact patch

  lemma MarkerRead(n: nat, tail: string)
    ensures MarkerNumber("… (" + Decimal.Print(n) + tail, tail) == Some(n)
  {
    var text := "… (" + Decimal.Print(n) + tail;
    assert text[|"… ("|..|text| - |tail|] == Decimal.Print(n);
    assert text[|text| - |tail|..] == tail;
    Decimal.ValueOfPrint(n);
  }

  lemma {:induction false} LeadingOf(lines: seq<string>, d: seq<DiffLine>)
    requires d != [] && !d[0].Context?
    ensures Leading(Contexts(lines) + d) == |lines|
  {
    if lines == [] {
      assert Contexts(lines) + d == d;
    } else {
      LeadingOf(lines[1..], d);
      assert (Contexts(lines) + d)[1..] == Contexts(lines[1..]) + d;
    }
  }

  lemma {:induction false} TrailingOf(d: seq<DiffLine>, lines: seq<string>)
    requires d != [] && !d[|d| - 1].Context?
    ensures Trailing(d + Contexts(lines)) == |lines|
  {
    if lines == [] {
      assert d + Contexts(lines) == d;
    } else {
      var n := |lines| - 1;
      TrailingOf(d, lines[..n]);
      assert (d + Contexts(lines))[..|d| + n] == d + Contexts(lines[..n]);
    }
  }

  lemma {:induction false} RemovingOf(removed: seq<string>, added: seq<string>)
    ensures Removing(Removals(removed) + Additions(added)) == |removed|
  {
    if removed == [] {
      assert Removals(removed) + Additions(added) == Additions(added);
    } else {
      RemovingOf(removed[1..], added);
      assert (Removals(removed) + Additions(added))[1..] == Removals(removed[1..]) + Additions(added);
    }
  }

  /** Hunks as the diff makes them: lines are left out only beyond two lines of context. */
  predicate Framed(h: Hunk) {
    && |h.lead| <= CONTEXT_LINES && (h.skipped > 0 ==> |h.lead| == CONTEXT_LINES)
    && |h.trail| <= CONTEXT_LINES && (h.rest > 0 ==> |h.trail| == CONTEXT_LINES)
    && (h.removed != [] || h.added != [])
  }

  /** The context in front of and behind the change, markers included. */
  function Front(h: Hunk): seq<string> {
    (if h.skipped > 0 then [BeforeMarker(h.skipped)] else []) + h.lead
  }

  function Back(h: Hunk): seq<string> {
    h.trail + (if h.rest > 0 then [AfterMarker(h.rest)] else [])
  }

  lemma FrontAndBack(h: Hunk)
    ensures Contexts(Front(h)) == (if h.skipped > 0 then [Context(BeforeMarker(h.skipped))] else []) + Contexts(h.lead)
    ensures Contexts(Back(h)) == Contexts(h.trail) + (if h.rest > 0 then [Context(AfterMarker(h.rest))] else [])
  {
    hide BeforeMarker, AfterMarker;
  }

  lemma ThreePairs(m: seq<DiffLine>, l: seq<DiffLine>, r: seq<DiffLine>, a: seq<DiffLine>, t: seq<DiffLine>,
                   n: seq<DiffLine>)
    ensures m + l + r + a + t + n == (m + l) + (r + a) + (t + n)
  {
  }

  lemma WrittenParts(h: Hunk)
    ensures Written(h) == Contexts(Front(h)) + (Removals(h.removed) + Additions(h.added)) + Contexts(Back(h))
  {
    hide Contexts, Removals, Additions, Front, Back, BeforeMarker, AfterMarker;
    FrontAndBack(h);
    ThreePairs(if h.skipped > 0 then [Context(BeforeMarker(h.skipped))] else [], Contexts(h.lead),
               Removals(h.removed), Additions(h.added), Contexts(h.trail),
               if h.rest > 0 then [Context(AfterMarker(h.rest))] else []);
  }

  lemma FrontRead(d: seq<DiffLine>, h: Hunk)
    requires Framed(h) && Contexts(Front(h)) <= d
    ensures |Front(h)| > CONTEXT_LINES <==> h.skipped > 0
    ensures h.skipped > 0 ==> MarkerNumber(d[0].text, " linhas antes)") == Some(h.skipped)
    ensures Texts(d[if |Front(h)| > CONTEXT_LINES then 1 else 0..|Front(h)|]) == h.lead
  {
    MarkerRead(h.skipped, " linhas antes)");
    assert forall i :: 0 <= i < |Front(h)| ==> d[i] == Context(Front(h)[i]);
  }

  lemma BackRead(before: seq<DiffLine>, h: Hunk)
    requires Framed(h)
    ensures var d, n := before + Contexts(Back(h)), |Back(h)|;
            && (n > CONTEXT_LINES <==> h.rest > 0)
            && (h.rest > 0 ==> MarkerNumber(d[|d| - 1].text, " linhas depois)") == Some(h.rest))
            && Texts(d[|d| - n..|d| - if n > CONTEXT_LINES then 1 else 0]) == h.trail
  {
    var d := before + Contexts(Back(h));
    MarkerRead(h.rest, " linhas depois)");
    assert forall i :: 0 <= i < |Back(h)| ==> d[|before| + i] == Context(Back(h)[i]);
  }

  lemma MiddleRead(h: Hunk)
    ensures var middle := Removals(h.removed) + Additions(h.added);
            && Removing(middle) == |h.removed|
            && Texts(middle[..|h.removed|]) == h.removed && Texts(middle[|h.removed|..]) == h.added
  {
    RemovingOf(h.removed, h.added);
  }

  lemma ChangeIsNoContext(h: Hunk)
    requires Framed(h)
    ensures var change := Removals(h.removed) + Additions(h.added);
            change != [] && !change[0].Context? && !change[|change| - 1].Context?
  {
  }

  /** Where the context in front and behind ends. */
  lemma Sections(h: Hunk)
    requires Framed(h)
    ensures var d := Written(h);
            && Leading(d) == |Front(h)| && Trailing(d) == |Back(h)| && |Front(h)| + |Back(h)| < |d|
            && d[|Front(h)|..|d| - |Back(h)|] == Removals(h.removed) + Additions(h.added)
            && Contexts(Front(h)) <= d
            && d == Contexts(Front(h)) + (Removals(h.removed) + Additions(h.added)) + Contexts(Back(h))
  {
    hide Framed, Written, Leading, Trailing, Front, Back, Contexts, Removals, Additions;
    var change := Removals(h.removed) + Additions(h.added);
    var front, back := Contexts(Front(h)), Contexts(Back(h));
    WrittenParts(h);
    ChangeIsNoContext(h);
    Regroup(front, change, back);
    LeadingOf(Front(h), change + back);
    TrailingOf(front + change, Back(h));
  }

  /** The entries alone determine the hunk. */
  lemma ReadWritten(h: Hunk)
    requires Framed(h)
    ensures ReadDiff(Written(h)) == Some(h)
  {
    hide Framed, Written, Texts, MarkerNumber, Leading, Trailing, Removing, Front, Back, Contexts, Removals, Additions;
    Sections(h);
    assert h == Hunk(h.skipped, h.lead, h.removed, h.added, h.trail, h.rest);
    FrontRead(Written(h), h);
    BackRead(Contexts(Front(h)) + (Removals(h.removed) + Additions(h.added)), h);
    MiddleRead(h);
  }

  lemma Regroup(x: seq<DiffLine>, y: seq<DiffLine>, z: seq<DiffLine>)
    ensures x + y + z == x + (y + z) && (x + y + z)[|x|..|x + y|] == y
    ensures y != [] ==> (y + z)[0] == y[0] && (x + y)[|x + y| - 1] == y[|y| - 1]
  {
  }

  lemma Ends(a: seq<string>, b: seq<string>, q: nat)
    requires q <= |a| && q <= |b| && forall i :: 0 <= i < q ==> FromEnd(a, i) == FromEnd(b, i)
    ensures a[|a| - q..] == b[|b| - q..]
  {
    var s, t := a[|a| - q..], b[|b| - q..];
    forall j | 0 <= j < q
      ensures s[j] == t[j]
    {
      assert FromEnd(a, q - 1 - j) == FromEnd(b, q - 1 - j);
    }
  }

  lemma Thirds(a: seq<string>, p: nat, q: nat, front: seq<string>, middle: seq<string>, back: seq<string>)
    requires p + q <= |a| && front == a[..p] && middle == a[p..|a| - q] && back == a[|a| - q..]
    ensures a == front + middle + back
  {
  }

  lemma FrontHalf(s: seq<string>, i: nat, j: nat, part: seq<string>)
    requires i <= j <= |s| && part == s[i..j]
    ensures s[..j] == s[..i] + part
  {
  }

  lemma BackHalf(s: seq<string>, i: nat, j: nat, part: seq<string>)
    requires i <= j <= |s| && part == s[i..j]
    ensures s[i..] == part + s[j..]
  {
  }

  lemma CommonEnds(a: seq<string>, b: seq<string>)
    ensures var p := Prefix(a, b, 0);
            var q := Suffix(a, b, p, 0);
            p + q <= |a| && p + q <= |b| && a[..p] == b[..p] && a[|a| - q..] == b[|b| - q..]
  {
    hide Prefix, Suffix;
    var p := Prefix(a, b, 0);
    Ends(a, b, Suffix(a, b, p, 0));
  }

  /** Both files are the same prefix and the same suffix around their own middle. */
  lemma Parts(a: seq<string>, b: seq<string>)
    ensures var h, p := HunkOf(a, b), Prefix(a, b, 0);
            var q := Suffix(a, b, p, 0);
            && p <= |a| && q <= |a|
            && a == a[..p] + h.removed + a[|a| - q..]
            && b == a[..p] + h.added + a[|a| - q..]
  {
    hide Prefix, Suffix, HunkOf;
    var h, p := HunkOf(a, b), Prefix(a, b, 0);
    var q := Suffix(a, b, p, 0);
    HunkMiddles(a, b);
    CommonEnds(a, b);
    Thirds(a, p, q, a[..p], h.removed, a[|a| - q..]);
    Thirds(b, p, q, a[..p], h.added, a[|a| - q..]);
  }

  /** The context is the end of that prefix and the start of that suffix. */
  lemma ContextParts(a: seq<string>, b: seq<string>)
    ensures var h, p := HunkOf(a, b), Prefix(a, b, 0);
            var q := Suffix(a, b, p, 0);
            && h.skipped + |h.lead| == p && |h.trail| + h.rest == q && p <= |a| && q <= |a|
            && a[..p] == a[..h.skipped] + h.lead && a[|a| - q..] == h.trail + a[|a| - h.rest..]
  {
    hide Prefix, Suffix, HunkOf;
    var h, p := HunkOf(a, b), Prefix(a, b, 0);
    var q := Suffix(a, b, p, 0);
    HunkFields(a, b);
    FrontHalf(a, h.skipped, p, h.lead);
    BackHalf(a, |a| - q, |a| - h.rest, h.trail);
  }

  lemma HunkMiddles(a: seq<string>, b: seq<string>)
    ensures var h, p := HunkOf(a, b), Prefix(a, b, 0);
            var q := Suffix(a, b, p, 0);
            h.removed == a[p..|a| - q] && h.added == b[p..|b| - q]
  {
    hide Prefix, Suffix;
  }

  lemma HunkFields(a: seq<string>, b: seq<string>)
    ensures var h, p := HunkOf(a, b), Prefix(a, b, 0);
            var q := Suffix(a, b, p, 0);
            && h.skipped <= p && h.rest <= q && |h.lead| == p - h.skipped && |h.trail| == q - h.rest
            && h.lead == a[h.skipped..p] && h.trail == a[|a| - q..|a| - h.rest]
            && h.removed == a[p..|a| - q] && h.added == b[p..|b| - q]
  {
    hide Prefix, Suffix;
  }

  lemma Around(a: seq<string>, front: seq<string>, middle: seq<string>, back: seq<string>,
               x: seq<string>, lead: seq<string>, trail: seq<string>, y: seq<string>)
    requires a == front + middle + back && front == x + lead && back == trail + y
    ensures a == x + (lead + middle + trail) + y
  {
  }

  lemma PatchWithin(h: Hunk, x: seq<string>, y: seq<string>)
    requires |x| == h.skipped && |y| == h.rest
    ensures Patch(h, x + Old(h) + y) == Some(x + New(h) + y)
  {
    hide Old, New;
    var lines := x + Old(h) + y;
    assert lines[h.skipped..|lines| - h.rest] == Old(h);
    assert lines[..h.skipped] == x && lines[|lines| - h.rest..] == y;
  }

  /** Both files are a hunk's two sides within the same lines. */
  lemma HunkWithin(a: seq<string>, b: seq<string>)
    ensures var h := HunkOf(a, b);
            && h.skipped <= |a| && h.rest <= |a|
            && a == a[..h.skipped] + Old(h) + a[|a| - h.rest..]
            && b == a[..h.skipped] + New(h) + a[|a| - h.rest..]
  {
    hide HunkOf, Prefix, Suffix;
    var h, p := HunkOf(a, b), Prefix(a, b, 0);
    var q := Suffix(a, b, p, 0);
    Parts(a, b);
    ContextParts(a, b);
    var x, y := a[..h.skipped], a[|a| - h.rest..];
    Around(a, a[..p], h.removed, a[|a| - q..], x, h.lead, h.trail, y);
    Around(b, a[..p], h.added, a[|a| - q..], x, h.lead, h.trail, y);
  }

  lemma ReversedSides(h: Hunk)
    ensures Old(Reversed(h)) == New(h) && New(Reversed(h)) == Old(h)
  {
  }

  lemma HunkPatches(a: seq<string>, b: seq<string>)
    ensures Patch(HunkOf(a, b), a) == Some(b)
    ensures Patch(Reversed(HunkOf(a, b)), b) == Some(a)
  {
    hide HunkOf, Patch, Old, New;
    var h := HunkOf(a, b);
    HunkWithin(a, b);
    ReversedSides(h);
    var x, y := a[..h.skipped], a[|a| - h.rest..];
    PatchWithin(h, x, y);
    PatchWithin(Reversed(h), x, y);
  }

  /** Two lines of context on each side, or all there are; what lies beyond is left out and counted. */
  lemma TwoLinesOfContext(a: seq<string>, b: seq<string>)
    ensures var h, p := HunkOf(a, b), Prefix(a, b, 0);
            var q := Suffix(a, b, p, 0);
            && |h.lead| == (if p < 2 then p else 2) && |h.trail| == (if q < 2 then q else 2)
            && h.skipped == p - |h.lead| && h.rest == q - |h.trail|
  {
    hide Prefix, Suffix;
  }

  /** The diff is empty exactly when the lines are equal. */
  lemma EmptyExactlyWhenEqual(a: seq<string>, b: seq<string>)
    ensures DiffOf(a, b) == [] <==> a == b
    ensures HunkOf(a, b).removed == [] && HunkOf(a, b).added == [] <==> a == b
  {
    var h := HunkOf(a, b);
    Parts(a, b);
    if a == b {
      assert Prefix(a, b, 0) == |a|;
    }
    if h.removed != [] || h.added != [] {
      WrittenParts(h);
      assert |Removals(h.removed) + Additions(h.added)| > 0;
    }
  }

  lemma HunkIsFramed(a: seq<string>, b: seq<string>)
    requires a != b
    ensures Framed(HunkOf(a, b))
  {
    EmptyExactlyWhenEqual(a, b);
  }

  /** Applied to the old lines the diff gives the new lines, and backwards it gives the old lines. */
  lemma ExactPatch(a: seq<string>, b: seq<string>)
    requires a != b
    ensures ReadDiff(DiffOf(a, b)).Some?
    ensures Patch(ReadDiff(DiffOf(a, b)).value, a) == Some(b)
    ensures Patch(Reversed(ReadDiff(DiffOf(a, b)).value), b) == Some(a)
  {
    EmptyExactlyWhenEqual(a, b);
    hide HunkOf, Patch, ReadDiff, Written;
    HunkIsFramed(a, b);
    ReadWritten(HunkOf(a, b));
    HunkPatches(a, b);
  }

  lemma CommonStart(g: Hunk, a: seq<string>, b: seq<string>, i: nat)
    requires Patch(g, a) == Some(b) && i < g.skipped + |g.lead|
    ensures i < |a| && i < |b| && a[i] == b[i]
  {
    if i >= g.skipped {
      assert a[g.skipped..|a| - g.rest][i - g.skipped] == Old(g)[i - g.skipped] == New(g)[i - g.skipped];
    }
  }

  lemma CommonEnd(g: Hunk, a: seq<string>, b: seq<string>, i: nat)
    requires Patch(g, a) == Some(b) && i < |g.trail| + g.rest
    ensures i < |a| && i < |b| && FromEnd(a, i) == FromEnd(b, i)
  {
    if i >= g.rest {
      var j := i - g.rest;
      assert a[g.skipped..|a| - g.rest][|Old(g)| - 1 - j] == Old(g)[|Old(g)| - 1 - j] == New(g)[|New(g)| - 1 - j];
    }
  }

  /** No hunk that turns the old lines into the new ones removes or adds fewer lines. */
  lemma SmallestChange(a: seq<string>, b: seq<string>, g: Hunk)
    requires Patch(g, a) == Some(b)
    ensures |HunkOf(a, b).removed| <= |g.removed| && |HunkOf(a, b).added| <= |g.added|
  {
    var p := Prefix(a, b, 0);
    var q := Suffix(a, b, p, 0);
    var p', q' := g.skipped + |g.lead|, |g.trail| + g.rest;
    assert |a| == p' + |g.removed| + q' && |b| == p' + |g.added| + q';
    if p < p' {
      CommonStart(g, a, b, p);
    }
    if q < q' {
      CommonEnd(g, a, b, q);
    }
  }

  /** At most six entries besides the changed lines. */
  lemma SmallDiff(a: seq<string>, b: seq<string>)
    ensures |DiffOf(a, b)| <= |HunkOf(a, b).removed| + |HunkOf(a, b).added| + 6
  {
    hide Written, Prefix, Suffix;
    HunkFields(a, b);
    WrittenSize(HunkOf(a, b));
  }

  lemma WrittenSize(h: Hunk)
    requires |h.lead| <= CONTEXT_LINES && |h.trail| <= CONTEXT_LINES
    ensures |Written(h)| <= |h.removed| + |h.added| + 6
  {
  }
}
