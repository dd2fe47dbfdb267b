/** The part of `run` that follows loading the configuration: look the event's
    label up in the resolved map, then either perform its action, only announce
    a dry run, or ignore the label. A thrown error ends `run` in the failed
    state. */
module Controller {
  import opened Wrappers
  import opened ConfigTree
  import opened LabelActions
  import opened Resolver
  import opened Dispatcher

  /** The line `run` announces: nothing, the action about to be performed, a dry
      run, or (in the `lib` copy only) a label without an action. */
  datatype Notice = Quiet | Performing | DryRun | Ignored

  /** Why `run` failed: the configuration was rejected, or a remote call threw. */
  datatype Failure = ConfigInvalid(error: ResolveError) | EffectFailed(effect: Effect)

  /** How `run` ends. */
  datatype Status = Succeeded | Failed(cause: Failure)

  /** Everything `run` does that the model observes. */
  datatype RunOutcome = RunOutcome(notice: Notice, attempts: seq<Attempt>, status: Status)

  /** How each copy's remote-call wrappers treat a failure. */
  function PolicyOf(variant: Variant): (p: Policy)
  {
    if variant == Lib then AbortOnFailure else LogAndContinue
  }

  /** What `run` does for a labelled event, given the parsed configuration, the
      label's name, the issue, the `perform` input and which remote calls fail. */
  function Outcome(variant: Variant, configObject: Value, labelName: string, issue: int, perform: string,
                   fails: Effect -> bool): (out: RunOutcome)
  {
    match Resolve(configObject, variant)
    case Err(e) => RunOutcome(Quiet, [], Failed(ConfigInvalid(e)))
    case Ok(m) =>
      if labelName !in m then RunOutcome(if variant == Lib then Ignored else Quiet, [], Succeeded)
      else if perform == "" then RunOutcome(DryRun, [], Succeeded)
      else
        var d := Execute(Planned(m[labelName], issue), PolicyOf(variant), fails);
        RunOutcome(Performing, d.trace,
                   if d.aborted then Failed(EffectFailed(d.trace[|d.trace| - 1].effect)) else Succeeded)
  }

  /** `run` from the parsed configuration on. */
  method Run(variant: Variant, configObject: Value, labelName: string, issue: int, perform: string,
             fails: Effect -> bool)
    returns (out: RunOutcome)
    ensures out == Outcome(variant, configObject, labelName, issue, perform, fails)
  {
    var labelActions := GetLabelActionMapFromObject(configObject, variant);
    if labelActions.Err? {
      return RunOutcome(Quiet, [], Failed(ConfigInvalid(labelActions.error)));
    }
    if labelName in labelActions.value {
      if perform != "" {
        var trace, aborted := PerformAction(labelActions.value[labelName], issue, PolicyOf(variant), fails);
        if aborted {
          out := RunOutcome(Performing, trace, Failed(EffectFailed(trace[|trace| - 1].effect)));
        } else {
          out := RunOutcome(Performing, trace, Succeeded);
        }
      } else {
        out := RunOutcome(DryRun, [], Succeeded);
      }
    } else if variant == Lib {
      out := RunOutcome(Ignored, [], Succeeded);
    } else {
      out := RunOutcome(Quiet, [], Succeeded);
    }
  }

  /** A configuration that fails to resolve fails the run before any remote
      call, with the resolver's error. */
  lemma RejectedConfigFails(variant: Variant, configObject: Value, labelName: string, issue: int, perform: string,
                            fails: Effect -> bool)
    requires Resolve(configObject, variant).Err?
    ensures Outcome(variant, configObject, labelName, issue, perform, fails)
      == RunOutcome(Quiet, [], Failed(ConfigInvalid(Resolve(configObject, variant).error)))
  {
  }

  /** The `src` copy never performs an action and never announces a dry run:
      whatever the configuration, label and `perform` input, no remote call is
      made. */
  lemma SrcNeverActs(configObject: Value, labelName: string, issue: int, perform: string, fails: Effect -> bool)
    ensures Outcome(Src, configObject, labelName, issue, perform, fails).attempts == []
    ensures Outcome(Src, configObject, labelName, issue, perform, fails).notice == Quiet
  {
    SrcIsLibWithoutInsert(ForInEntries(configObject));
  }

  /** In the `lib` copy a label without an action makes no remote call; the run
      succeeds with only the "ignoring" line. */
  lemma LibUnknownLabelIgnored(configObject: Value, labelName: string, issue: int, perform: string,
                               fails: Effect -> bool)
    requires Resolve(configObject, Lib).Ok? && labelName !in Resolve(configObject, Lib).value
    ensures Outcome(Lib, configObject, labelName, issue, perform, fails) == RunOutcome(Ignored, [], Succeeded)
  {
  }

  /** An empty `perform` input is a dry run: no remote call, and the run succeeds
      unless the configuration is rejected. */
  lemma DryRunMakesNoCall(variant: Variant, configObject: Value, labelName: string, issue: int, fails: Effect -> bool)
    ensures Outcome(variant, configObject, labelName, issue, "", fails).attempts == []
    ensures Outcome(variant, configObject, labelName, issue, "", fails).status.Failed? <==> Resolve(configObject, variant).Err?
    ensures Outcome(variant, configObject, labelName, issue, "", fails).notice == DryRun <==>
      Resolve(configObject, variant).Ok? && labelName in Resolve(configObject, variant).value
  {
  }

  /** With a configured label and a non-empty `perform`, the run performs the
      label's action and reports the dispatch. */
  lemma PerformedOutcome(variant: Variant, configObject: Value, m: map<string, LabelAction>, labelName: string,
                         issue: int, perform: string, fails: Effect -> bool)
    requires perform != "" && Resolve(configObject, variant) == Ok(m) && labelName in m
    ensures var d := Execute(Planned(m[labelName], issue), PolicyOf(variant), fails);
      Outcome(variant, configObject, labelName, issue, perform, fails) == RunOutcome(Performing, d.trace,
        if d.aborted then Failed(EffectFailed(d.trace[|d.trace| - 1].effect)) else Succeeded)
  {
  }

  /** In the `lib` copy any non-empty `perform`, `"false"` included, performs the
      configured action: its calls are attempted in order, each as it went, and
      when the run succeeds every call was attempted. */
  lemma LibPerformsInOrder(configObject: Value, m: map<string, LabelAction>, labelName: string, issue: int,
                           perform: string, fails: Effect -> bool)
    requires perform != "" && Resolve(configObject, Lib) == Ok(m) && labelName in m
    ensures var p := Planned(m[labelName], issue);
      var out := Outcome(Lib, configObject, labelName, issue, perform, fails);
      out.notice == Performing
      && |out.attempts| <= |p|
      && (forall i :: 0 <= i < |out.attempts| ==> out.attempts[i] == Attempt(p[i], !fails(p[i])))
      && (out.status == Succeeded ==> |out.attempts| == |p|)
  {
    PerformedOutcome(Lib, configObject, m, labelName, issue, perform, fails);
    ExecuteAbortOnFailure(Planned(m[labelName], issue), fails);
  }

  /** In the `lib` copy a performed action fails the run exactly when one of its
      calls fails; the run stops at the first failing call and names it. */
  lemma LibFailsOnFirstFailure(configObject: Value, m: map<string, LabelAction>, labelName: string, issue: int,
                               perform: string, fails: Effect -> bool)
    requires perform != "" && Resolve(configObject, Lib) == Ok(m) && labelName in m
    ensures var p := Planned(m[labelName], issue);
      var out := Outcome(Lib, configObject, labelName, issue, perform, fails);
      (out.status.Failed? <==> exists i :: 0 <= i < |p| && fails(p[i]))
      && (out.status.Failed? ==>
            0 < |out.attempts| <= |p| && out.status.cause == EffectFailed(p[|out.attempts| - 1])
            && fails(p[|out.attempts| - 1]) && forall i :: 0 <= i < |out.attempts| - 1 ==> !fails(p[i]))
  {
    PerformedOutcome(Lib, configObject, m, labelName, issue, perform, fails);
    AbortedIffSomeFailure(Planned(m[labelName], issue), fails);
  }

  /** The `"false"` string is truthy: with a configured label, `lib` performs. */
  lemma FalseStringPerforms(configObject: Value, labelName: string, issue: int, fails: Effect -> bool)
    requires Resolve(configObject, Lib).Ok? && labelName in Resolve(configObject, Lib).value
    ensures Outcome(Lib, configObject, labelName, issue, "false", fails).notice == Performing
  {
  }

  /** The document `{ bug: { hasOwnProperty: true } }` fails the run for the label
      `bug` in both copies: the entry's own `hasOwnProperty` is not callable. */
  lemma ShadowedEntryFailsRun(variant: Variant, issue: int, perform: string, fails: Effect -> bool)
    ensures Outcome(variant, Obj(map["bug" := Obj(map["hasOwnProperty" := Bool(true)], ["hasOwnProperty"])], ["bug"]),
                    "bug", issue, perform, fails)
      == RunOutcome(Quiet, [], Failed(ConfigInvalid(NotCallable("bug"))))
  {
    var entry := Obj(map["hasOwnProperty" := Bool(true)], ["hasOwnProperty"]);
    var doc := Obj(map["bug" := entry], ["bug"]);
    var es := ForInEntries(doc);
    assert es == [("bug", entry)];
    assert ActionFor("bug", entry) == Err(NotCallable("bug"));
    ResolveFirstErr(es, variant, 0);
  }
}
