/** The test fixture's own trace logic: dropping informer noise from the recorded
    actions, comparing one expected action with one actual action, and comparing
    the whole expected trace with the recorded one. */
module Harness {
  import opened Model
  import opened Actions

  // ---------------------------------------------------------------------------
  // filterInformerActions

  /** The informer resources whose list and watch calls are noise. */
  const InformerResources := {MachineConfigPools, ControllerConfigs, ContainerRuntimeConfigs, MachineConfigs}

  /** A cluster-scoped list or watch of one of the four informer resources: the eight
      `Matches` tests of the filter, grouped by verb and resource. */
  predicate IsInformerNoise(a: Action) {
    |a.namespace| == 0 && (a.verb == List || a.verb == Watch) && a.resource in InformerResources
  }

  /** The actions that survive filtering, in their original order. */
  function Filtered(actions: seq<Action>): seq<Action> {
    if actions == [] then []
    else
      var last := actions[|actions| - 1];
      Filtered(actions[..|actions| - 1]) + (if IsInformerNoise(last) then [] else [last])
  }

  method FilterInformerActions(actions: seq<Action>) returns (ret: seq<Action>)
    ensures ret == Filtered(actions)
    ensures forall a :: a in ret ==> !IsInformerNoise(a)
  {
    ret := [];
    var i := 0;
    while i < |actions|
      invariant 0 <= i <= |actions|
      invariant ret == Filtered(actions[..i])
      invariant forall a :: a in ret ==> !IsInformerNoise(a)
    {
      var action := actions[i];
      assert actions[..i + 1][..i] == actions[..i];
      if !IsInformerNoise(action) {
        ret := ret + [action];
      }
      i := i + 1;
    }
    assert actions[..|actions|] == actions;
  }

  /** `idx` lists, in increasing order, the positions in `s` that `sub` was taken from. */
  ghost predicate SubsequenceAt(sub: seq<Action>, s: seq<Action>, idx: seq<int>) {
    |idx| == |sub| &&
    (forall k :: 0 <= k < |idx| ==> 0 <= idx[k] < |s| && sub[k] == s[idx[k]]) &&
    (forall k, l :: 0 <= k < l < |idx| ==> idx[k] < idx[l])
  }

  /** Appending an action that is skipped keeps the positions valid. */
  lemma WidenSubsequence(sub: seq<Action>, s: seq<Action>, idx: seq<int>, a: Action)
    requires SubsequenceAt(sub, s, idx)
    ensures SubsequenceAt(sub, s + [a], idx)
  {
    assert forall k :: 0 <= k < |idx| ==> (s + [a])[idx[k]] == s[idx[k]];
  }

  /** Appending an action that is kept extends the positions by the new last one. */
  lemma ExtendSubsequence(sub: seq<Action>, s: seq<Action>, idx: seq<int>, a: Action)
    requires SubsequenceAt(sub, s, idx)
    ensures SubsequenceAt(sub + [a], s + [a], idx + [|s|])
  {
    var idx' := idx + [|s|];
    assert forall k :: 0 <= k < |idx| ==> idx'[k] == idx[k] && (s + [a])[idx[k]] == s[idx[k]];
  }

  /** Positions below `n`, possibly followed by `n` itself: membership below `n` is
      membership in the old list, and `n` is a member exactly when it was appended. */
  lemma IndexStep(pre: seq<int>, idx: seq<int>, n: int, keepLast: bool)
    requires forall k :: 0 <= k < |pre| ==> pre[k] < n
    requires idx == if keepLast then pre + [n] else pre
    ensures forall j :: j < n ==> (j in idx <==> j in pre)
    ensures n in idx <==> keepLast
  {
  }

  /** Filtering keeps exactly the positions that are not noise, in order. */
  lemma {:induction false} FilteredKeepsNonNoise(s: seq<Action>) returns (idx: seq<int>)
    ensures SubsequenceAt(Filtered(s), s, idx)
    ensures forall j :: 0 <= j < |s| ==> (j in idx <==> !IsInformerNoise(s[j]))
  {
    if s == [] {
      idx := [];
    } else {
      var init := s[..|s| - 1];
      var last := s[|s| - 1];
      assert s == init + [last];
      var pre := FilteredKeepsNonNoise(init);
      var keep := !IsInformerNoise(last);
      if keep {
        idx := pre + [|init|];
        ExtendSubsequence(Filtered(init), init, pre, last);
      } else {
        idx := pre;
        WidenSubsequence(Filtered(init), init, pre, last);
      }
      IndexStep(pre, idx, |init|, keep);
      forall j | 0 <= j < |s|
        ensures j in idx <==> !IsInformerNoise(s[j])
      {
        if j < |init| {
          assert s[j] == init[j];
        }
      }
    }
  }

  /** Every action of the result comes from the input and is not noise, and every
      non-noise action of the input is kept. */
  lemma {:induction false} FilteredMembership(s: seq<Action>)
    ensures forall a :: a in Filtered(s) <==> a in s && !IsInformerNoise(a)
  {
    if s != [] {
      var init := s[..|s| - 1];
      FilteredMembership(init);
      assert s == init + [s[|s| - 1]];
    }
  }

  /** Filtering an already filtered trace changes nothing. */
  lemma {:induction false} FilteredIdempotent(s: seq<Action>)
    ensures Filtered(Filtered(s)) == Filtered(s)
  {
    FilteredMembership(s);
    FilteredOfCleanTrace(Filtered(s));
  }

  /** A trace with no noise in it passes through the filter unchanged. */
  lemma {:induction false} FilteredOfCleanTrace(s: seq<Action>)
    requires forall a :: a in s ==> !IsInformerNoise(a)
    ensures Filtered(s) == s
  {
    if s != [] {
      var init := s[..|s| - 1];
      FilteredOfCleanTrace(init);
      assert s == init + [s[|s| - 1]];
    }
  }

  // ---------------------------------------------------------------------------
  // checkAction

  /** The concrete action types of the client-go testing package. */
  datatype ActionType =
    | GetActionImpl | ListActionImpl | WatchActionImpl | CreateActionImpl
    | UpdateActionImpl | PatchActionImpl | DeleteActionImpl

  function TypeOf(a: Action): ActionType {
    match a.verb
    case Get => GetActionImpl
    case List => ListActionImpl
    case Watch => WatchActionImpl
    case Create => CreateActionImpl
    case Update => UpdateActionImpl
    case Patch => PatchActionImpl
    case Delete => DeleteActionImpl
  }

  /** The `CreateAction` interface asks for `GetObject`; both create and update
      actions carry an object, so both implement it. */
  predicate ImplementsCreateAction(t: ActionType) {
    t == CreateActionImpl || t == UpdateActionImpl
  }

  /** The `UpdateAction` interface has the same method set as `CreateAction`. */
  predicate ImplementsUpdateAction(t: ActionType) {
    t == CreateActionImpl || t == UpdateActionImpl
  }

  predicate ImplementsPatchAction(t: ActionType) {
    t == PatchActionImpl
  }

  datatype Mismatch = WrongAction | WrongType | WrongResource | WrongObject | WrongPatch

  datatype Verdict = Pass | Fail(mismatch: Mismatch)

  /** Verb, resource and subresource agree. */
  predicate SameShape(expected: Action, actual: Action) {
    expected.verb == actual.verb && expected.resource == actual.resource &&
    expected.subresource == actual.subresource
  }

  /** checkAction as the fixture writes it: the type switch takes the first case whose
      interface the actual action implements, so update actions land in the create case,
      and the patch case compares the expected patch with itself. */
  function CheckActionAsWritten(expected: Action, actual: Action): (v: Verdict)
    ensures v == Pass <==> SameShape(expected, actual)
    ensures v != Pass ==> v == Fail(WrongAction)
  {
    if !(expected.Matches(actual.verb, actual.resource) && actual.subresource == expected.subresource) then
      Fail(WrongAction)
    else if TypeOf(actual) != TypeOf(expected) then
      Fail(WrongType)
    else if ImplementsCreateAction(TypeOf(actual)) then
      if actual.verb != expected.verb || actual.resource != expected.resource then Fail(WrongResource) else Pass
    else if ImplementsUpdateAction(TypeOf(actual)) then
      if expected.obj != actual.obj then Fail(WrongObject) else Pass
    else if ImplementsPatchAction(TypeOf(actual)) then
      if expected.patch != expected.patch then Fail(WrongPatch) else Pass
    else
      Pass
  }

  /** checkAction as its cases evidently intend: create actions agree on verb and
      resource, update actions also on their object, patch actions on their patch. */
  function CheckAction(expected: Action, actual: Action): (v: Verdict)
    ensures v == Pass <==>
      SameShape(expected, actual) &&
      (actual.verb == Update ==> expected.obj == actual.obj) &&
      (actual.verb == Patch ==> expected.patch == actual.patch)
    ensures v == Fail(WrongObject) ==> SameShape(expected, actual) && actual.verb == Update
    ensures v == Fail(WrongPatch) ==> SameShape(expected, actual) && actual.verb == Patch
  {
    if !(expected.Matches(actual.verb, actual.resource) && actual.subresource == expected.subresource) then
      Fail(WrongAction)
    else if TypeOf(actual) != TypeOf(expected) then
      Fail(WrongType)
    else
      match actual.verb
      case Create =>
        if actual.verb != expected.verb || actual.resource != expected.resource then Fail(WrongResource) else Pass
      case Update =>
        if expected.obj != actual.obj then Fail(WrongObject) else Pass
      case Patch =>
        if expected.patch != actual.patch then Fail(WrongPatch) else Pass
      case _ => Pass
  }

  /** The comparison a validation run uses. */
  function Check(asWritten: bool, expected: Action, actual: Action): Verdict {
    if asWritten then CheckActionAsWritten(expected, actual) else CheckAction(expected, actual)
  }

  /** As written, two update actions that differ only in their objects are accepted,
      and so are two patches that differ only in their contents. */
  lemma AsWrittenIgnoresPayloads(expected: Action, actual: Action)
    requires SameShape(expected, actual)
    requires (actual.verb == Update && expected.obj != actual.obj) ||
             (actual.verb == Patch && expected.patch != actual.patch)
    ensures CheckActionAsWritten(expected, actual) == Pass
    ensures CheckAction(expected, actual) != Pass
  {
  }

  // ---------------------------------------------------------------------------
  // validateActions

  /** One `t.Errorf` of a validation run. */
  datatype TestFailure =
    | UnexpectedActions(extra: int)
    | MissingActions(missing: int)
    | WrongActionAt(index: int, mismatch: Mismatch)
    | SyncError(handler: string)
    | MissingSyncError(handler: string)

  /** The trace passes validation: same length, and every pair is accepted. */
  predicate Validates(asWritten: bool, expected: seq<Action>, actual: seq<Action>) {
    |expected| == |actual| &&
    forall i :: 0 <= i < |actual| ==> Check(asWritten, expected[i], actual[i]) == Pass
  }

  /** validateActions: filters the recorded actions, walks them against the expected
      list (stopping at the first action that has no expected partner) and reports
      expected actions that never happened. Returns every failure it reports. */
  method ValidateActions(expected: seq<Action>, recorded: seq<Action>, asWritten: bool)
    returns (failures: seq<TestFailure>)
    ensures var actual := Filtered(recorded);
      (failures == [] <==> Validates(asWritten, expected, actual)) &&
      (UnexpectedActions(|actual| - |expected|) in failures <==> |actual| > |expected|) &&
      (MissingActions(|expected| - |actual|) in failures <==> |expected| > |actual|) &&
      (forall i :: 0 <= i < |actual| && i < |expected| && Check(asWritten, expected[i], actual[i]) != Pass ==>
        WrongActionAt(i, Check(asWritten, expected[i], actual[i]).mismatch) in failures) &&
      (forall f :: f in failures && f.WrongActionAt? ==>
        0 <= f.index < |actual| && f.index < |expected| &&
        Check(asWritten, expected[f.index], actual[f.index]) == Fail(f.mismatch))
  {
    var actual := FilterInformerActions(recorded);
    failures := [];
    var i := 0;
    while i < |actual|
      invariant 0 <= i <= |actual|
      invariant i <= |expected| || (i == |actual| && UnexpectedActions(|actual| - |expected|) in failures)
      invariant forall f :: f in failures ==> f.WrongActionAt? || f == UnexpectedActions(|actual| - |expected|)
      invariant UnexpectedActions(|actual| - |expected|) in failures ==> |actual| > |expected|
      invariant failures == [] <==>
        UnexpectedActions(|actual| - |expected|) !in failures &&
        forall j :: 0 <= j < i && j < |expected| ==> Check(asWritten, expected[j], actual[j]) == Pass
      invariant forall j :: 0 <= j < i && j < |expected| && Check(asWritten, expected[j], actual[j]) != Pass ==>
        WrongActionAt(j, Check(asWritten, expected[j], actual[j]).mismatch) in failures
      invariant forall f :: f in failures && f.WrongActionAt? ==>
        0 <= f.index < i && f.index < |expected| &&
        Check(asWritten, expected[f.index], actual[f.index]) == Fail(f.mismatch)
    {
      if |expected| < i + 1 {
        failures := failures + [UnexpectedActions(|actual| - |expected|)];
        i := |actual|;
        break;
      }
      var verdict := Check(asWritten, expected[i], actual[i]);
      if verdict != Pass {
        failures := failures + [WrongActionAt(i, verdict.mismatch)];
      }
      i := i + 1;
    }
    if |expected| > |actual| {
      failures := failures + [MissingActions(|expected| - |actual|)];
    }
  }
}
