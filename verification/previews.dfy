/** Bounded previews of tool results (`internal/chat/session.go`): one batch shares a byte budget,
    and a long result shows both of its ends. */
module Previews {
  import opened Ids

  const MAX_PREVIEW_BYTES := 8192
  const MAX_BATCH_BYTES := 12288
  const MIN_ALLOWANCE := 512

  /** The raw bytes of one result that reach the model. */
  datatype Preview = Whole(text: string) | Ends(head: string, omitted: nat, tail: string)

  function Shown(p: Preview): nat {
    match p
    case Whole(text) => |text|
    case Ends(head, _, tail) => |head| + |tail|
  }

  function Max(a: int, b: int): int {
    if a < b then b else a
  }

  function Min(a: int, b: int): int {
    if b < a then b else a
  }

  /** `artifactToolOutputPreview`: head and tail are disjoint parts of the output, and together with
      the omitted bytes they are all of it. */
  function PreviewOf(output: string, allowance: int): (p: Preview)
    ensures Shown(p) == Min(|output|, Max(1, allowance))
    ensures p.Whole? ==> p.text == output
    ensures p.Ends? ==> p.omitted > 0 && |p.head| <= |p.tail| <= |p.head| + 1
                        && exists middle: string :: |middle| == p.omitted && output == p.head + middle + p.tail
  {
    var limit := Max(1, allowance);
    if |output| <= limit then Whole(output) else
      var head := limit / 2;
      var tail := limit - head;
      assert output == output[..head] + output[head..|output| - tail] + output[|output| - tail..];
      Ends(output[..head], |output| - limit, output[|output| - tail..])
  }

  /** Division as the source does it: toward zero. */
  function Quotient(a: int, b: int): int
    requires b > 0
  {
    if a >= 0 then a / b else -(-a / b)
  }

  function Allowance(remaining: int, remainingCalls: int): int {
    var share := if remainingCalls > 1 then Max(MIN_ALLOWANCE, Quotient(remaining, remainingCalls)) else remaining;
    Min(share, MAX_PREVIEW_BYTES)
  }

  /** The budget and the previews after the first `n` results. */
  function Allocated(ids: seq<Id>, raw: map<Id, string>, n: nat): (int, map<Id, Preview>)
    requires n <= |ids|
  {
    if n == 0 then (MAX_BATCH_BYTES, map[]) else
      var (remaining, previews) := Allocated(ids, raw, n - 1);
      var id := ids[n - 1];
      if id !in raw then (remaining, previews) else
        var allowance := Allowance(remaining, |ids| - (n - 1));
        (remaining - Min(|raw[id]|, allowance), previews[id := PreviewOf(raw[id], allowance)])
  }

  method BatchPreviews(ids: seq<Id>, raw: map<Id, string>) returns (previews: map<Id, Preview>)
    ensures previews == Allocated(ids, raw, |ids|).1
  {
    previews := map[];
    var remaining, remainingCalls := MAX_BATCH_BYTES, |ids|;
    for i := 0 to |ids|
      invariant (remaining, previews) == Allocated(ids, raw, i) && remainingCalls == |ids| - i
    {
      if ids[i] !in raw {
        remainingCalls := remainingCalls - 1;
        continue;
      }
      var output := raw[ids[i]];
      var allowance := remaining;
      if remainingCalls > 1 {
        allowance := Max(MIN_ALLOWANCE, Quotient(remaining, remainingCalls));
      }
      allowance := Min(allowance, MAX_PREVIEW_BYTES);
      previews := previews[ids[i] := PreviewOf(output, allowance)];
      remaining := remaining - Min(|output|, allowance);
      remainingCalls := remainingCalls - 1;
    }
  }

  /** Raw bytes the model sees in a batch: every result shows the preview of its call id. */
  function BatchShown(ids: seq<Id>, previews: map<Id, Preview>, n: nat): nat
    requires n <= |ids|
  {
    if n == 0 then 0 else
      BatchShown(ids, previews, n - 1) + if ids[n - 1] in previews then Shown(previews[ids[n - 1]]) else 0
  }

  lemma {:induction false} LaterPreviewsDoNotCount(ids: seq<Id>, previews: map<Id, Preview>, id: Id, p: Preview, n: nat)
    requires n <= |ids| && forall k :: 0 <= k < n ==> ids[k] != id
    ensures BatchShown(ids, previews[id := p], n) == BatchShown(ids, previews, n)
  {
    if n > 0 {
      LaterPreviewsDoNotCount(ids, previews, id, p, n - 1);
    }
  }

  /** Exactly the ids with a recorded output get a preview. */
  lemma {:induction false} PreviewsAreOfRecordedIds(ids: seq<Id>, raw: map<Id, string>, n: nat)
    requires n <= |ids|
    ensures forall id :: id in Allocated(ids, raw, n).1 <==> id in ids[..n] && id in raw
  {
    if n > 0 {
      PreviewsAreOfRecordedIds(ids, raw, n - 1);
      assert ids[..n] == ids[..n - 1] + [ids[n - 1]];
    }
  }

  lemma Times(a: int, b: int, c: nat)
    requires a <= b
    ensures a * c <= b * c
  {
  }

  lemma DivideAtLeast(a: int, b: int, c: int)
    requires b > 0
    ensures a / b >= c <==> a >= c * b
  {
    var q := a / b;
    assert q * b <= a < q * b + b;
    if q >= c {
      Times(c, q, b);
    } else {
      Times(q + 1, c, b);
      assert (q + 1) * b == q * b + b;
    }
  }

  lemma QuotientShare(remaining: int, calls: int)
    requires calls > 0 && remaining >= MIN_ALLOWANCE * calls
    ensures MIN_ALLOWANCE <= Quotient(remaining, calls)
    ensures remaining - Quotient(remaining, calls) >= MIN_ALLOWANCE * (calls - 1)
  {
    var q := remaining / calls;
    DivideAtLeast(remaining, calls, MIN_ALLOWANCE);
    Times(MIN_ALLOWANCE, q, calls - 1);
    assert q * (calls - 1) + q == q * calls <= remaining;
  }

  lemma QuotientSmall(remaining: int, calls: int)
    requires calls > 0 && remaining < MIN_ALLOWANCE * calls
    ensures Quotient(remaining, calls) < MIN_ALLOWANCE
  {
    if remaining >= 0 {
      DivideAtLeast(remaining, calls, MIN_ALLOWANCE);
    } else {
      DivideAtLeast(-remaining, calls, 0);
    }
  }

  /** What one allowance may take: a fair share while the budget lasts, the minimum afterwards. */
  lemma AllowanceBounds(remaining: int, calls: int)
    requires calls > 0
    ensures remaining >= MIN_ALLOWANCE * calls ==>
      0 < Allowance(remaining, calls) && remaining - Allowance(remaining, calls) >= MIN_ALLOWANCE * (calls - 1)
    ensures remaining < MIN_ALLOWANCE * calls ==> Allowance(remaining, calls) <= MIN_ALLOWANCE
    ensures calls > 1 ==> Allowance(remaining, calls) >= MIN_ALLOWANCE
  {
    if remaining >= MIN_ALLOWANCE * calls {
      QuotientShare(remaining, calls);
    } else {
      QuotientSmall(remaining, calls);
    }
  }

  /** Either the budget still covers the minimum of everybody left, or nobody got more than that. */
  lemma {:induction false} BudgetHolds(ids: seq<Id>, raw: map<Id, string>, n: nat)
    requires n <= |ids| && forall i, j :: 0 <= i < j < |ids| ==> ids[i] != ids[j]
    ensures var (remaining, previews) := Allocated(ids, raw, n); var shown := BatchShown(ids, previews, n);
      && (n < |ids| ==> shown == MAX_BATCH_BYTES - remaining)
      && ((shown <= MAX_BATCH_BYTES - remaining && remaining >= MIN_ALLOWANCE * (|ids| - n))
          || shown <= MIN_ALLOWANCE * n)
  {
    if n > 0 {
      BudgetHolds(ids, raw, n - 1);
      var (remaining, previews) := Allocated(ids, raw, n - 1);
      var id, calls := ids[n - 1], |ids| - (n - 1);
      PreviewsAreOfRecordedIds(ids, raw, n - 1);
      assert id !in ids[..n - 1];
      assert id !in previews;
      if id in raw {
        AllowanceBounds(remaining, calls);
        LaterPreviewsDoNotCount(ids, previews, id, PreviewOf(raw[id], Allowance(remaining, calls)), n - 1);
      }
    }
  }

  /** A batch of n results shows at most max(12288, 512 n) raw bytes; 12288 for up to 24 results. */
  lemma BatchIsBounded(ids: seq<Id>, raw: map<Id, string>)
    requires forall i, j :: 0 <= i < j < |ids| ==> ids[i] != ids[j]
    ensures var shown := BatchShown(ids, Allocated(ids, raw, |ids|).1, |ids|);
      shown <= Max(MAX_BATCH_BYTES, MIN_ALLOWANCE * |ids|) && (|ids| <= 24 ==> shown <= MAX_BATCH_BYTES)
  {
    BudgetHolds(ids, raw, |ids|);
  }

  // ---- nobody is short-changed ----

  /** A call id met once keeps the preview it was given then. */
  lemma {:induction false} PreviewStays(ids: seq<Id>, raw: map<Id, string>, i: nat, n: nat)
    requires i < n <= |ids| && ids[i] in raw && forall j, k :: 0 <= j < k < |ids| ==> ids[j] != ids[k]
    ensures var previews := Allocated(ids, raw, n).1;
      && ids[i] in previews
      && previews[ids[i]] == PreviewOf(raw[ids[i]], Allowance(Allocated(ids, raw, i).0, |ids| - i))
  {
    if i < n - 1 {
      PreviewStays(ids, raw, i, n - 1);
      assert ids[n - 1] != ids[i];
    }
  }

  lemma ShareIsFair(remaining: int, calls: int, q: int)
    requires calls > 0 && q >= MIN_ALLOWANCE && remaining >= q * calls
    ensures Allowance(remaining, calls) >= Min(MAX_PREVIEW_BYTES, q)
    ensures remaining - Allowance(remaining, calls) >= q * (calls - 1)
  {
    var s := remaining / calls;
    Times(0, q, calls);
    DivideAtLeast(remaining, calls, q);
    Times(q, s, calls - 1);
    assert s * (calls - 1) + s == s * calls <= remaining;
  }

  /** What earlier results leave is enough for an equal share of everybody left. */
  lemma {:induction false} BudgetIsFair(ids: seq<Id>, raw: map<Id, string>, n: nat, q: int)
    requires n <= |ids| && q >= MIN_ALLOWANCE && MAX_BATCH_BYTES >= q * |ids|
    ensures Allocated(ids, raw, n).0 >= q * (|ids| - n)
  {
    if n > 0 {
      BudgetIsFair(ids, raw, n - 1, q);
      ShareIsFair(Allocated(ids, raw, n - 1).0, |ids| - (n - 1), q);
      assert q * (|ids| - (n - 1)) == q * (|ids| - n) + q;
    }
  }

  /** In a batch of up to 24 results each shows its whole output or an equal share of the budget, capped at 8192
      bytes, at least. */
  lemma EveryoneGetsAShare(ids: seq<Id>, raw: map<Id, string>, i: nat)
    requires i < |ids| <= 24 && ids[i] in raw && forall j, k :: 0 <= j < k < |ids| ==> ids[j] != ids[k]
    ensures var previews := Allocated(ids, raw, |ids|).1;
      ids[i] in previews
        && Shown(previews[ids[i]]) >= Min(|raw[ids[i]]|, Min(MAX_PREVIEW_BYTES, MAX_BATCH_BYTES / |ids|))
  {
    hide Allocated;
    var q := MAX_BATCH_BYTES / |ids|;
    DivideAtLeast(MAX_BATCH_BYTES, |ids|, MIN_ALLOWANCE);
    PreviewStays(ids, raw, i, |ids|);
    BudgetIsFair(ids, raw, i, q);
    ShareIsFair(Allocated(ids, raw, i).0, |ids| - i, q);
  }

  /** Whatever the others left unused is there for the last one. */
  lemma LastGetsTheRest(ids: seq<Id>, raw: map<Id, string>)
    requires ids != [] && ids[|ids| - 1] in raw && forall j, k :: 0 <= j < k < |ids| ==> ids[j] != ids[k]
    ensures var n, last, previews := |ids| - 1, ids[|ids| - 1], Allocated(ids, raw, |ids|).1;
      last in previews && Shown(previews[last]) ==
        Min(|raw[last]|, Max(1, Min(MAX_PREVIEW_BYTES, MAX_BATCH_BYTES - BatchShown(ids, previews, n))))
  {
    var n, last := |ids| - 1, ids[|ids| - 1];
    PreviewStays(ids, raw, n, |ids|);
    BudgetHolds(ids, raw, n);
    var (remaining, previews) := Allocated(ids, raw, n);
    LaterPreviewsDoNotCount(ids, previews, last, PreviewOf(raw[last], Allowance(remaining, 1)), n);
  }
}
