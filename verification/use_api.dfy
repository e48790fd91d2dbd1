/** The retrying fetch hook (frontend/src/hooks/useApi.js). One fetch cycle
    calls the remote operation until it resolves or `maxRetries` calls have
    failed, waiting 1000·k ms after the k-th failure, and writes the
    `data`, `loading` and `error` state as it goes.

    The remote operation is an oracle: `apiCall(k)` is how the call made
    when `k` calls of this cycle have already failed settles. The timer is
    not modelled; each wait is recorded in a ghost trace of effects, in the
    order the hook performs them. */
module UseApi {
  import opened Wrappers

  datatype Outcome<D> = Resolved(value: D) | Rejected

  /** One observable step of a fetch cycle. */
  datatype Effect<D> =
    | SetLoading(on: bool)
    | Call(attempt: nat)
    | Wait(ms: nat)
    | SetData(value: D)
    | ClearError
    | SetError

  /** The only error message the hook ever stores. */
  const FailureMessage: string := "Failed to fetch data after multiple attempts"

  const DefaultMaxRetries: int := 3

  /** The first call in `k .. maxRetries - 1` that resolves, if any. */
  ghost function FirstResolved<D>(apiCall: nat -> Outcome<D>, maxRetries: int, k: nat): (r: Option<nat>)
    ensures r.Some? ==> k <= r.value < maxRetries && apiCall(r.value).Resolved?
    ensures r.Some? ==> forall j :: k <= j < r.value ==> apiCall(j).Rejected?
    ensures r.None? ==> forall j :: k <= j < maxRetries ==> apiCall(j).Rejected?
    decreases if k < maxRetries then maxRetries - k else 0
  {
    if k >= maxRetries then None
    else if apiCall(k).Resolved? then Some(k)
    else FirstResolved(apiCall, maxRetries, k + 1)
  }

  /** The effects of the attempt made when `k` calls have failed: loading
      on, the call, then either the result stored and the error cleared, or
      (after the last allowed failure) the error stored and the back-off
      wait; loading goes off last, in the `finally` block. */
  ghost function Attempt<D>(apiCall: nat -> Outcome<D>, maxRetries: int, k: nat): seq<Effect<D>>
  {
    [SetLoading(true), Call(k)] +
    match apiCall(k)
    case Resolved(v) => [SetData(v), ClearError, SetLoading(false)]
    case Rejected =>
      (if k + 1 == maxRetries then [SetError] else []) + [Wait(1000 * (k + 1)), SetLoading(false)]
  }

  /** The effects of the rest of a cycle whose counter stands at `k`. */
  ghost function Cycle<D>(apiCall: nat -> Outcome<D>, maxRetries: int, k: nat): seq<Effect<D>>
    decreases if k < maxRetries then maxRetries - k else 0
  {
    if k >= maxRetries then []
    else if apiCall(k).Resolved? then Attempt(apiCall, maxRetries, k)
    else Attempt(apiCall, maxRetries, k) + Cycle(apiCall, maxRetries, k + 1)
  }

  /** An attempt turns loading on, makes its call and turns loading off
      last; it stores the error iff its call is the last allowed one and
      fails, and clears the error iff its call resolves. */
  lemma AttemptShape<D>(apiCall: nat -> Outcome<D>, maxRetries: int, k: nat)
    ensures var a := Attempt(apiCall, maxRetries, k);
      4 <= |a| && a[0] == SetLoading(true) && a[1] == Call(k) && a[|a| - 1] == SetLoading(false)
    ensures SetError in Attempt(apiCall, maxRetries, k) <==> apiCall(k).Rejected? && k + 1 == maxRetries
    ensures ClearError in Attempt(apiCall, maxRetries, k) <==> apiCall(k).Resolved?
  {
  }

  /** A cycle is empty iff its counter has reached `maxRetries`; otherwise
      it starts with the attempt for that counter and ends with loading off. */
  lemma {:induction false} CycleShape<D>(apiCall: nat -> Outcome<D>, maxRetries: int, k: nat)
    ensures var c := Cycle(apiCall, maxRetries, k);
      (c == [] <==> k >= maxRetries) &&
      (c != [] ==> c[0] == SetLoading(true) && c[1] == Call(k) && c[|c| - 1] == SetLoading(false))
    decreases if k < maxRetries then maxRetries - k else 0
  {
    if k < maxRetries {
      AttemptShape(apiCall, maxRetries, k);
      if apiCall(k).Rejected? {
        CycleShape(apiCall, maxRetries, k + 1);
      }
    }
  }

  /** The elements `pick` selects from a trace, in order. */
  ghost function Project<D, X>(t: seq<Effect<D>>, pick: Effect<D> -> Option<X>): seq<X>
    decreases |t|
  {
    if t == [] then []
    else (match pick(t[0]) case Some(x) => [x] case None => []) + Project(t[1..], pick)
  }

  lemma {:induction false} ProjectConcat<D, X>(a: seq<Effect<D>>, b: seq<Effect<D>>, pick: Effect<D> -> Option<X>)
    ensures Project(a + b, pick) == Project(a, pick) + Project(b, pick)
    decreases |a|
  {
    if a == [] {
      assert a + b == b;
    } else {
      var h: seq<X> := match pick(a[0]) case Some(x) => [x] case None => [];
      ProjectConcat(a[1..], b, pick);
      assert (a + b)[0] == a[0] && (a + b)[1..] == a[1..] + b;
      calc {
        Project(a + b, pick);
        h + Project(a[1..] + b, pick);
        h + (Project(a[1..], pick) + Project(b, pick));
        (h + Project(a[1..], pick)) + Project(b, pick);
      }
    }
  }

  ghost function CallOf<D>(e: Effect<D>): Option<nat>
  {
    if e.Call? then Some(e.attempt) else None
  }

  ghost function WaitOf<D>(e: Effect<D>): Option<nat>
  {
    if e.Wait? then Some(e.ms) else None
  }

  ghost function LoadingOf<D>(e: Effect<D>): Option<bool>
  {
    if e.SetLoading? then Some(e.on) else None
  }

  ghost function ErrorOf<D>(e: Effect<D>): Option<()>
  {
    if e.SetError? then Some(()) else None
  }

  /** The attempt numbers of the calls made, in order. */
  ghost function Calls<D>(t: seq<Effect<D>>): seq<nat> { Project(t, CallOf) }

  /** The back-off waits, in ms, in order. */
  ghost function Waits<D>(t: seq<Effect<D>>): seq<nat> { Project(t, WaitOf) }

  /** The values written to `loading`, in order. */
  ghost function LoadingWrites<D>(t: seq<Effect<D>>): seq<bool> { Project(t, LoadingOf) }

  /** How many times `error` is set. */
  ghost function ErrorWrites<D>(t: seq<Effect<D>>): nat { |Project(t, ErrorOf)| }

  /** `[lo, lo + 1, ..., hi - 1]`. */
  ghost function Range(lo: nat, hi: nat): (r: seq<nat>)
    ensures |r| == if lo <= hi then hi - lo else 0
    ensures forall i :: 0 <= i < |r| ==> r[i] == lo + i
    decreases if lo <= hi then hi - lo else 0
  {
    if lo >= hi then [] else [lo] + Range(lo + 1, hi)
  }

  /** The waits after failures `lo + 1 .. hi`: `[1000·(lo+1), ..., 1000·hi]`. */
  ghost function Backoff(lo: nat, hi: nat): (r: seq<nat>)
    ensures |r| == if lo <= hi then hi - lo else 0
    ensures forall i :: 0 <= i < |r| ==> r[i] == 1000 * (lo + i + 1)
    decreases if lo <= hi then hi - lo else 0
  {
    if lo >= hi then [] else [1000 * (lo + 1)] + Backoff(lo + 1, hi)
  }

  /** The number of failed calls a cycle from `k` makes: up to the first
      success, or up to `maxRetries`. */
  ghost function Failures<D>(apiCall: nat -> Outcome<D>, maxRetries: int, k: nat): nat
  {
    match FirstResolved(apiCall, maxRetries, k)
    case Some(j) => j
    case None => if k < maxRetries then maxRetries else k
  }

  /** The calls of a cycle are attempts `k, k + 1, ...`, one per failure,
      plus one more when a call resolves; none follows the success, and
      none is made past `maxRetries`. */
  lemma {:induction false} CycleCalls<D>(apiCall: nat -> Outcome<D>, maxRetries: int, k: nat)
    ensures Calls(Cycle(apiCall, maxRetries, k)) ==
      Range(k, Failures(apiCall, maxRetries, k) + if FirstResolved(apiCall, maxRetries, k).Some? then 1 else 0)
    decreases if k < maxRetries then maxRetries - k else 0
  {
    if k < maxRetries {
      var a := Attempt(apiCall, maxRetries, k);
      var tail := a[2..];
      assert a == [SetLoading(true), Call(k)] + tail;
      ProjectConcat([SetLoading(true), Call(k)], tail, CallOf);
      ProjectConcat<D, nat>([SetLoading(true)], [Call(k)], CallOf);
      assert Project(tail, CallOf) == [] by { NoCallsInTail(apiCall, maxRetries, k); }
      assert Calls(a) == [k];
      if apiCall(k).Rejected? {
        CycleCalls(apiCall, maxRetries, k + 1);
        ProjectConcat(a, Cycle(apiCall, maxRetries, k + 1), CallOf);
      }
    }
  }

  /** After its call, an attempt makes no further call. */
  lemma NoCallsInTail<D>(apiCall: nat -> Outcome<D>, maxRetries: int, k: nat)
    ensures Project(Attempt(apiCall, maxRetries, k)[2..], CallOf) == []
  {
    var tail := Attempt(apiCall, maxRetries, k)[2..];
    assert forall i :: 0 <= i < |tail| ==> !tail[i].Call?;
    NoPick(tail, CallOf);
  }

  /** A trace with nothing `pick` selects projects to nothing. */
  lemma {:induction false} NoPick<D, X>(t: seq<Effect<D>>, pick: Effect<D> -> Option<X>)
    requires forall i :: 0 <= i < |t| ==> pick(t[i]).None?
    ensures Project(t, pick) == []
    decreases |t|
  {
    if t != [] {
      NoPick(t[1..], pick);
    }
  }

  /** A cycle makes at most `maxRetries` calls, and none when
      `maxRetries <= 0`. */
  lemma CallsBounded<D>(apiCall: nat -> Outcome<D>, maxRetries: int)
    ensures |Calls(Cycle(apiCall, maxRetries, 0))| <= if maxRetries > 0 then maxRetries else 0
    ensures FirstResolved(apiCall, maxRetries, 0).None? && maxRetries > 0 ==>
              |Calls(Cycle(apiCall, maxRetries, 0))| == maxRetries
  {
    CycleCalls(apiCall, maxRetries, 0);
  }

  /** The waits of a cycle are 1000·(k+1), 1000·(k+2), ...: one after each
      failure, the final failure included, and none after a success. */
  lemma {:induction false} CycleWaits<D>(apiCall: nat -> Outcome<D>, maxRetries: int, k: nat)
    ensures Waits(Cycle(apiCall, maxRetries, k)) == Backoff(k, Failures(apiCall, maxRetries, k))
    decreases if k < maxRetries then maxRetries - k else 0
  {
    if k < maxRetries {
      var a := Attempt(apiCall, maxRetries, k);
      var head: seq<Effect<D>> := [SetLoading(true), Call(k)];
      NoPick(head, WaitOf);
      match apiCall(k)
      case Resolved(v) =>
        ProjectConcat(head, [SetData(v), ClearError, SetLoading(false)], WaitOf);
        NoPick([SetData(v), ClearError, SetLoading(false)], WaitOf);
      case Rejected =>
        var err: seq<Effect<D>> := if k + 1 == maxRetries then [SetError] else [];
        var rest: seq<Effect<D>> := [Wait(1000 * (k + 1)), SetLoading(false)];
        NoPick(err, WaitOf);
        ProjectConcat(err, rest, WaitOf);
        ProjectConcat(head, err + rest, WaitOf);
        assert a == head + (err + rest);
        assert rest[1..] == [SetLoading(false)] && rest[1..][1..] == [];
        assert Waits(a) == [1000 * (k + 1)];
        CycleWaits(apiCall, maxRetries, k + 1);
        ProjectConcat(a, Cycle(apiCall, maxRetries, k + 1), WaitOf);
    }
  }

  /** `error` is written at most once in a cycle, and exactly when every
      allowed call failed. */
  lemma {:induction false} CycleErrors<D>(apiCall: nat -> Outcome<D>, maxRetries: int, k: nat)
    ensures ErrorWrites(Cycle(apiCall, maxRetries, k)) ==
              if k < maxRetries && FirstResolved(apiCall, maxRetries, k).None? then 1 else 0
    decreases if k < maxRetries then maxRetries - k else 0
  {
    if k < maxRetries {
      var a := Attempt(apiCall, maxRetries, k);
      var head: seq<Effect<D>> := [SetLoading(true), Call(k)];
      NoPick(head, ErrorOf);
      match apiCall(k)
      case Resolved(v) =>
        ProjectConcat(head, [SetData(v), ClearError, SetLoading(false)], ErrorOf);
        NoPick([SetData(v), ClearError, SetLoading(false)], ErrorOf);
      case Rejected =>
        var err: seq<Effect<D>> := if k + 1 == maxRetries then [SetError] else [];
        var rest: seq<Effect<D>> := [Wait(1000 * (k + 1)), SetLoading(false)];
        NoPick(rest, ErrorOf);
        ProjectConcat(err, rest, ErrorOf);
        ProjectConcat(head, err + rest, ErrorOf);
        assert a == head + (err + rest);
        assert ErrorWrites(a) == if k + 1 == maxRetries then 1 else 0;
        CycleErrors(apiCall, maxRetries, k + 1);
        ProjectConcat(a, Cycle(apiCall, maxRetries, k + 1), ErrorOf);
    }
  }

  /** `loading` is written true at the start of every attempt and false at
      its end, so the writes alternate, start with true and end with false. */
  lemma {:induction false} CycleLoading<D>(apiCall: nat -> Outcome<D>, maxRetries: int, k: nat)
    ensures |LoadingWrites(Cycle(apiCall, maxRetries, k))| == 2 * |Calls(Cycle(apiCall, maxRetries, k))|
    ensures forall i :: 0 <= i < |LoadingWrites(Cycle(apiCall, maxRetries, k))| ==>
              LoadingWrites(Cycle(apiCall, maxRetries, k))[i] == (i % 2 == 0)
    decreases if k < maxRetries then maxRetries - k else 0
  {
    if k < maxRetries {
      var a := Attempt(apiCall, maxRetries, k);
      var head: seq<Effect<D>> := [SetLoading(true), Call(k)];
      var tail := a[2..];
      assert a == head + tail;
      ProjectConcat(head, tail, LoadingOf);
      ProjectConcat<D, bool>([SetLoading(true)], [Call(k)], LoadingOf);
      ProjectConcat(head, tail, CallOf);
      ProjectConcat<D, nat>([SetLoading(true)], [Call(k)], CallOf);
      NoCallsInTail(apiCall, maxRetries, k);
      LoadingInTail(apiCall, maxRetries, k);
      assert LoadingWrites(a) == [true, false];
      assert Calls(a) == [k];
      if apiCall(k).Rejected? {
        var c := Cycle(apiCall, maxRetries, k + 1);
        CycleLoading(apiCall, maxRetries, k + 1);
        ProjectConcat(a, c, LoadingOf);
        ProjectConcat(a, c, CallOf);
        var w := LoadingWrites(a + c);
        forall i | 2 <= i < |w| ensures w[i] == (i % 2 == 0) {
          assert w[i] == LoadingWrites(c)[i - 2];
        }
      }
    }
  }

  /** After its call, an attempt writes `loading` once, to false. */
  lemma LoadingInTail<D>(apiCall: nat -> Outcome<D>, maxRetries: int, k: nat)
    ensures Project(Attempt(apiCall, maxRetries, k)[2..], LoadingOf) == [false]
  {
    var tail := Attempt(apiCall, maxRetries, k)[2..];
    var last: seq<Effect<D>> := [SetLoading(false)];
    var front := tail[..|tail| - 1];
    assert tail == front + last;
    assert forall i :: 0 <= i < |front| ==> !front[i].SetLoading?;
    NoPick(front, LoadingOf);
    ProjectConcat(front, last, LoadingOf);
  }

  /** The state a component reads from the hook. */
  class ApiHook<D> {
    var data: Option<D>
    var loading: bool
    var error: Option<string>
    const maxRetries: int
    /** Every effect performed so far, oldest first. */
    ghost var trace: seq<Effect<D>>

    /** `useApi(apiCall, dependencies, maxRetries)` before any fetch:
        no data, loading, no error. */
    constructor (maxRetries: int)
      ensures this.maxRetries == maxRetries
      ensures data == None && loading && error == None && trace == []
    {
      this.maxRetries := maxRetries;
      data := None;
      loading := true;
      error := None;
      trace := [];
    }

    /** One pass of the loop body: `loading` on, the call, then either the
        result stored and the error cleared, or the counter's failure
        handled (the error on the last allowed failure, then the back-off
        wait); `loading` off in the `finally` block. */
    method Try(apiCall: nat -> Outcome<D>, attempts: nat) returns (resolved: bool)
      requires attempts < maxRetries
      modifies this
      ensures resolved <==> apiCall(attempts).Resolved?
      ensures trace == old(trace) + Attempt(apiCall, maxRetries, attempts)
      ensures !loading
      ensures resolved ==> data == Some(apiCall(attempts).value) && error == None
      ensures !resolved ==> data == old(data)
      ensures !resolved ==> error == if attempts + 1 == maxRetries then Some(FailureMessage) else old(error)
    {
      loading := true;
      trace := trace + [SetLoading(true)];
      var result := apiCall(attempts);
      trace := trace + [Call(attempts)];
      if result.Resolved? {
        data := Some(result.value);
        error := None;
        trace := trace + [SetData(result.value), ClearError];
        resolved := true;
      } else {
        var failures := attempts + 1;
        if failures == maxRetries {
          error := Some(FailureMessage);
          trace := trace + [SetError];
        }
        trace := trace + [Wait(1000 * failures)];
        resolved := false;
      }
      loading := false;
      trace := trace + [SetLoading(false)];
    }

    /** `fetchData`, run by the effect and by `refetch`: one cycle with a
        fresh attempt counter. */
    method FetchData(apiCall: nat -> Outcome<D>)
      modifies this
      ensures trace == old(trace) + Cycle(apiCall, maxRetries, 0)
      ensures maxRetries <= 0 ==> data == old(data) && loading == old(loading) && error == old(error)
      ensures maxRetries > 0 ==> !loading
      ensures FirstResolved(apiCall, maxRetries, 0).Some? ==>
                data == Some(apiCall(FirstResolved(apiCall, maxRetries, 0).value).value) && error == None
      ensures FirstResolved(apiCall, maxRetries, 0).None? && maxRetries > 0 ==>
                data == old(data) && error == Some(FailureMessage)
    {
      var attempts: nat := 0;
      while attempts < maxRetries
        invariant attempts == 0 || attempts <= maxRetries
        invariant FailedBefore(apiCall, attempts)
        invariant old(trace) + Cycle(apiCall, maxRetries, 0) == trace + Cycle(apiCall, maxRetries, attempts)
        invariant data == old(data)
        invariant attempts < maxRetries || attempts == 0 ==> error == old(error)
        invariant 0 < attempts == maxRetries ==> error == Some(FailureMessage)
        invariant attempts == 0 ==> loading == old(loading)
        invariant attempts > 0 ==> !loading
        decreases maxRetries - attempts
      {
        ghost var before := trace;
        var resolved := Try(apiCall, attempts);
        CycleStep(apiCall, maxRetries, attempts, before);
        if resolved {
          FirstResolvedAt(apiCall, maxRetries, attempts);
          return;
        }
        attempts := attempts + 1;
      }
      if maxRetries > 0 {
        NoneResolved(apiCall, maxRetries);
      }
    }
  }

  /** A cycle is its first attempt followed, after a failure, by the rest. */
  lemma CycleStep<D>(apiCall: nat -> Outcome<D>, maxRetries: int, k: nat, before: seq<Effect<D>>)
    requires k < maxRetries
    ensures before + Cycle(apiCall, maxRetries, k) ==
      (before + Attempt(apiCall, maxRetries, k))
      + (if apiCall(k).Resolved? then [] else Cycle(apiCall, maxRetries, k + 1))
  {
    var a := Attempt(apiCall, maxRetries, k);
    if apiCall(k).Rejected? {
      assert before + (a + Cycle(apiCall, maxRetries, k + 1)) == (before + a) + Cycle(apiCall, maxRetries, k + 1);
    } else {
      assert (before + a) + [] == before + a;
    }
  }

  /** Calls `0 .. k - 1` all fail. */
  ghost predicate FailedBefore<D>(apiCall: nat -> Outcome<D>, k: nat)
  {
    forall j :: 0 <= j < k ==> apiCall(j).Rejected?
  }

  /** A resolving call preceded only by failures is the first success. */
  lemma FirstResolvedAt<D>(apiCall: nat -> Outcome<D>, maxRetries: int, k: nat)
    requires k < maxRetries && apiCall(k).Resolved?
    requires FailedBefore(apiCall, k)
    ensures FirstResolved(apiCall, maxRetries, 0) == Some(k)
  {
  }

  /** With every allowed call failing there is no first success. */
  lemma NoneResolved<D>(apiCall: nat -> Outcome<D>, maxRetries: int)
    requires maxRetries >= 0 && FailedBefore(apiCall, maxRetries)
    ensures FirstResolved(apiCall, maxRetries, 0).None?
  {
  }

  /** A cycle whose every call fails, followed by `refetch` whose first call
      resolves: the refetch stores the data and clears the stale error. */
  method RefetchAfterExhaustion(failing: nat -> Outcome<int>, fixed: nat -> Outcome<int>)
    requires forall k :: failing(k).Rejected?
    requires fixed(0) == Resolved(7)
  {
    var hook := new ApiHook<int>(DefaultMaxRetries);
    hook.FetchData(failing);
    assert hook.error == Some(FailureMessage) && hook.data == None;
    hook.FetchData(fixed);
    assert FirstResolved(fixed, DefaultMaxRetries, 0) == Some(0);
    assert hook.data == Some(7) && hook.error == None && !hook.loading;
  }
}
