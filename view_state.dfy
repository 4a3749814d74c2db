/** `ViewState`, and the order in which a screen's view model goes through its states. */
module ViewStates {
  datatype ViewState = Idle | Loading | Loaded | Error

  /** The states a view model has been in, oldest first: idle at creation, then for each
      fetch `loading` followed by `loaded` or `error`. */
  ghost predicate IsRun(states: seq<ViewState>)
  {
    && |states| % 2 == 1
    && states[0] == Idle
    && forall i :: 0 < i < |states| ==> states[i] != Idle && (states[i] == Loading <==> i % 2 == 1)
  }

  /** One fetch extends a run by `loading` and an outcome. */
  lemma FetchExtendsRun(states: seq<ViewState>, outcome: ViewState)
    requires IsRun(states) && (outcome == Loaded || outcome == Error)
    ensures IsRun(states + [Loading, outcome])
  {
    var next := states + [Loading, outcome];
    forall i | 0 < i < |next| ensures next[i] != Idle && (next[i] == Loading <==> i % 2 == 1) {
      if i < |states| {
        assert next[i] == states[i];
      }
    }
  }

  /** A view model is never left loading: once it has fetched, its state is an outcome. */
  lemma RunEndsSettled(states: seq<ViewState>)
    requires IsRun(states)
    ensures |states| == 1 ==> states[0] == Idle
    ensures |states| > 1 ==> states[|states| - 1] == Loaded || states[|states| - 1] == Error
  {
    if |states| > 1 {
      var last := |states| - 1;
      assert last % 2 == 0;
    }
  }
}
