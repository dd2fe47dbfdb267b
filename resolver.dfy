/** `getLabelActionMapFromObject`: the loop over the document's labels that
    validates each entry and builds the map from label name to action. The two
    copies of the program differ here: the `src` copy never inserts into the map
    it returns, the `lib` copy inserts every validated label. */
module Resolver {
  import opened Wrappers
  import opened ConfigTree
  import opened LabelActions

  /** Which copy of the program: `Src` is src/label-actions.js, `Lib` is
      lib/label-actions.js. */
  datatype Variant = Src | Lib

  /** The resolution of a sequence of `(label, entry)` pairs, visited in order:
      the first entry that fails validation ends it with that error; otherwise
      each label is bound to its action (`Lib`) or nothing is bound (`Src`). */
  function ResolveEntries(es: seq<(string, Value)>, variant: Variant): (r: Result<map<string, LabelAction>, ResolveError>)
    decreases |es|
  {
    if es == [] then Ok(map[])
    else
      match ResolveEntries(es[..|es| - 1], variant)
      case Err(e) => Err(e)
      case Ok(m) =>
        var (labelName, entry) := es[|es| - 1];
        match ActionFor(labelName, entry)
        case Err(e) => Err(e)
        case Ok(a) => Ok(if variant == Lib then m[labelName := a] else m)
  }

  /** The resolution of a whole document: its `for ... in` entries. */
  function Resolve(configObject: Value, variant: Variant): (r: Result<map<string, LabelAction>, ResolveError>)
  {
    ResolveEntries(ForInEntries(configObject), variant)
  }

  /** The loop of `getLabelActionMapFromObject`. The first throw escapes the loop,
      so no partial map is returned. */
  method GetLabelActionMapFromObject(configObject: Value, variant: Variant)
    returns (r: Result<map<string, LabelAction>, ResolveError>)
    ensures r == Resolve(configObject, variant)
    ensures variant == Src && r.Ok? ==> r.value == map[]
  {
    var labelActionsMap: map<string, LabelAction> := map[];
    var entries := ForInEntries(configObject);
    var i := 0;
    while i < |entries|
      invariant 0 <= i <= |entries|
      invariant ResolveEntries(entries[..i], variant) == Ok(labelActionsMap)
      invariant variant == Src ==> labelActionsMap == map[]
    {
      var (labelName, entry) := entries[i];
      var labelAction := BuildLabelAction(labelName, entry);
      ResolveStep(entries, i, variant);
      if labelAction.Err? {
        ResolvePrefixErr(entries, i + 1, variant);
        return Err(labelAction.error);
      }
      if variant == Lib {
        labelActionsMap := labelActionsMap[labelName := labelAction.value];
      }
      i := i + 1;
    }
    assert entries[..i] == entries;
    return Ok(labelActionsMap);
  }

  /** Visiting entry `i` after the first `i` entries have resolved. */
  lemma ResolveStep(es: seq<(string, Value)>, i: nat, variant: Variant)
    requires i < |es| && ResolveEntries(es[..i], variant).Ok?
    ensures ResolveEntries(es[..i + 1], variant) ==
      match ActionFor(es[i].0, es[i].1)
      case Err(e) => Err(e)
      case Ok(a) =>
        var m := ResolveEntries(es[..i], variant).value;
        Ok(if variant == Lib then m[es[i].0 := a] else m)
  {
    assert es[..i + 1][..i] == es[..i];
  }

  /** Once a prefix of the entries fails, the whole resolution fails with the
      same error. */
  lemma {:induction false} ResolvePrefixErr(es: seq<(string, Value)>, k: nat, variant: Variant)
    requires k <= |es| && ResolveEntries(es[..k], variant).Err?
    ensures ResolveEntries(es, variant) == ResolveEntries(es[..k], variant)
    decreases |es|
  {
    if k == |es| {
      assert es[..k] == es;
    } else {
      var init := es[..|es| - 1];
      assert init[..k] == es[..k];
      ResolvePrefixErr(init, k, variant);
    }
  }

  /** Resolution succeeds exactly when every entry validates. */
  lemma {:induction false} ResolveOkIff(es: seq<(string, Value)>, variant: Variant)
    ensures ResolveEntries(es, variant).Ok? <==> forall i :: 0 <= i < |es| ==> ActionFor(es[i].0, es[i].1).Ok?
    decreases |es|
  {
    if es != [] {
      var init := es[..|es| - 1];
      ResolveOkIff(init, variant);
      assert forall i :: 0 <= i < |init| ==> init[i] == es[i];
    }
  }

  /** When entry `i` is the first that fails validation, resolution fails with
      its error: the whole resolution is aborted, whatever follows. */
  lemma {:induction false} ResolveFirstErr(es: seq<(string, Value)>, variant: Variant, i: nat)
    requires i < |es| && ActionFor(es[i].0, es[i].1).Err?
    requires forall j :: 0 <= j < i ==> ActionFor(es[j].0, es[j].1).Ok?
    ensures ResolveEntries(es, variant) == Err(ActionFor(es[i].0, es[i].1).error)
  {
    var pre := es[..i + 1];
    ResolveOkIff(pre[..i], variant);
    assert forall j :: 0 <= j < i ==> pre[..i][j] == es[j];
    assert pre[..|pre| - 1] == pre[..i];
    ResolvePrefixErr(es, i + 1, variant);
  }

  /** The `src` copy behaves as the `lib` copy with the insertion removed: the same
      errors, and an empty map whenever `lib` succeeds. */
  lemma {:induction false} SrcIsLibWithoutInsert(es: seq<(string, Value)>)
    ensures ResolveEntries(es, Src) ==
      match ResolveEntries(es, Lib)
      case Ok(_) => Ok(map[])
      case Err(e) => Err(e)
    decreases |es|
  {
    if es != [] {
      SrcIsLibWithoutInsert(es[..|es| - 1]);
    }
  }

  /** Some entry carries label `k`. */
  predicate Visited(es: seq<(string, Value)>, k: string)
  {
    exists i :: 0 <= i < |es| && es[i].0 == k
  }

  /** A label is visited by a non-empty sequence exactly when it is the last
      entry's or visited by the others. */
  lemma VisitedSnoc(es: seq<(string, Value)>, k: string)
    requires es != []
    ensures Visited(es, k) <==> Visited(es[..|es| - 1], k) || es[|es| - 1].0 == k
  {
    var n := |es| - 1;
    var init := es[..n];
    if Visited(es, k) && k != es[n].0 {
      var i :| 0 <= i < |es| && es[i].0 == k;
      assert init[i] == es[i];
    }
    if Visited(init, k) {
      var i :| 0 <= i < n && init[i].0 == k;
      assert es[i] == init[i];
    }
  }

  /** A successful `lib` resolution is the resolution of all but the last entry,
      with the last entry's label bound to its action. */
  lemma LibLast(es: seq<(string, Value)>, m: map<string, LabelAction>)
    requires es != [] && ResolveEntries(es, Lib) == Ok(m)
    ensures var n := |es| - 1;
      && ResolveEntries(es[..n], Lib).Ok? && ActionFor(es[n].0, es[n].1).Ok?
      && m == ResolveEntries(es[..n], Lib).value[es[n].0 := ActionFor(es[n].0, es[n].1).value]
  {
  }

  /** In the `lib` copy the map's keys are exactly the labels visited. */
  lemma {:induction false} LibKeys(es: seq<(string, Value)>, m: map<string, LabelAction>)
    requires ResolveEntries(es, Lib) == Ok(m)
    ensures forall k :: k in m <==> Visited(es, k)
    decreases |es|
  {
    if es != [] {
      var n := |es| - 1;
      var init := es[..n];
      LibLast(es, m);
      var m0 := ResolveEntries(init, Lib).value;
      LibKeys(init, m0);
      forall k ensures k in m <==> Visited(es, k) {
        VisitedSnoc(es, k);
      }
    }
  }

  /** In the `lib` copy each label is bound to the action of the last entry with
      that label. */
  lemma {:induction false} LibLastBindingWins(es: seq<(string, Value)>, m: map<string, LabelAction>, i: nat)
    requires ResolveEntries(es, Lib) == Ok(m)
    requires i < |es| && forall j :: i < j < |es| ==> es[j].0 != es[i].0
    ensures es[i].0 in m && Ok(m[es[i].0]) == ActionFor(es[i].0, es[i].1)
    decreases |es|
  {
    var n := |es| - 1;
    var init := es[..n];
    LibLast(es, m);
    var m0 := ResolveEntries(init, Lib).value;
    if i < n {
      assert es[i] == init[i];
      forall j | i < j < |init| ensures init[j].0 != init[i].0 {
        assert init[j] == es[j];
      }
      LibLastBindingWins(init, m0, i);
    }
  }

  /** For a well-formed object document the `lib` map has exactly the document's
      top-level keys, each bound to its validated action. */
  lemma LibObjectDocument(configObject: Value, m: map<string, LabelAction>)
    requires WellFormedObject(configObject) && Resolve(configObject, Lib) == Ok(m)
    ensures m.Keys == configObject.fields.Keys
    ensures forall k :: k in m ==> Ok(m[k]) == ActionFor(k, configObject.fields[k])
  {
    var es := ForInEntries(configObject);
    LibKeys(es, m);
    ForInObject(configObject);
    forall k | k in m ensures k in configObject.fields && Ok(m[k]) == ActionFor(k, configObject.fields[k]) {
      var i :| 0 <= i < |es| && es[i].0 == k;
      var last := LastIndexOf(es, i);
      LibLastBindingWins(es, m, last);
    }
  }

  /** The last index holding the same label as index `i`. */
  function LastIndexOf(es: seq<(string, Value)>, i: nat): (last: nat)
    requires i < |es|
    ensures i <= last < |es| && es[last].0 == es[i].0
    ensures forall j :: last < j < |es| ==> es[j].0 != es[last].0
    decreases |es| - i
  {
    if exists j :: i < j < |es| && es[j].0 == es[i].0 then
      var j :| i < j < |es| && es[j].0 == es[i].0;
      LastIndexOf(es, j)
    else i
  }

  /** The document `{ bug: { close: "yes" } }` fails to resolve, naming `bug` and
      `close`, in both copies. */
  lemma CloseYesDocumentRejected(variant: Variant)
    ensures Resolve(Obj(map["bug" := Obj(map["close" := Str("yes")], ["close"])], ["bug"]), variant)
      == Err(WrongType("bug", Close))
  {
    var doc := Obj(map["bug" := Obj(map["close" := Str("yes")], ["close"])], ["bug"]);
    CloseYesRejected();
    var es := ForInEntries(doc);
    assert es == [("bug", Obj(map["close" := Str("yes")], ["close"]))];
    ResolveFirstErr(es, variant, 0);
  }

  /** The document `{ bug: { close: true } }` resolves in both copies, but only the
      `lib` copy keeps the label: the `src` copy returns an empty map. */
  lemma SrcDropsConfiguredLabel()
    ensures Resolve(Obj(map["bug" := Obj(map["close" := Bool(true)], ["close"])], ["bug"]), Lib)
      == Ok(map["bug" := Defaults.(close := true)])
    ensures Resolve(Obj(map["bug" := Obj(map["close" := Bool(true)], ["close"])], ["bug"]), Src)
      == Ok(map[])
  {
    var entry := Obj(map["close" := Bool(true)], ["close"]);
    var doc := Obj(map["bug" := entry], ["bug"]);
    assert Field(entry, Close) == Some(Bool(true));
    assert forall o :: o != Close ==> Field(entry, o) == None;
    assert ActionFor("bug", entry) == Ok(Defaults.(close := true));
    var es := ForInEntries(doc);
    assert es == [("bug", entry)];
    assert es[..0] == [];
  }

  /** In the `lib` copy, when no two entries share a label, every entry's label is
      bound to that entry's action. */
  lemma LibDistinctLabels(es: seq<(string, Value)>, m: map<string, LabelAction>)
    requires ResolveEntries(es, Lib) == Ok(m)
    requires forall i, j :: 0 <= i < j < |es| ==> es[i].0 != es[j].0
    ensures forall i :: 0 <= i < |es| ==> es[i].0 in m && Ok(m[es[i].0]) == ActionFor(es[i].0, es[i].1)
  {
    forall i | 0 <= i < |es| ensures es[i].0 in m && Ok(m[es[i].0]) == ActionFor(es[i].0, es[i].1) {
      LibLastBindingWins(es, m, i);
    }
  }

  /** The `for ... in` keys of an array or a string of length `n`. */
  function IndexKeys(n: nat): (keys: set<string>)
  {
    set i | 0 <= i < n :: DecimalString(i)
  }

  /** Each entry is labelled by the decimal spelling of its position, as
      `for ... in` labels the elements of an array or a string. */
  predicate IndexLabelled(es: seq<(string, Value)>)
  {
    forall i :: 0 <= i < |es| ==> es[i].0 == DecimalString(i)
  }

  /** Entries labelled by their positions carry pairwise distinct labels, and the
      labels visited are the index keys. */
  lemma IndexLabels(es: seq<(string, Value)>)
    requires IndexLabelled(es)
    ensures forall i, j :: 0 <= i < j < |es| ==> es[i].0 != es[j].0
    ensures forall k :: Visited(es, k) <==> k in IndexKeys(|es|)
  {
    forall i, j | 0 <= i < j < |es| ensures es[i].0 != es[j].0 {
      DecimalStringInjective(i, j);
    }
    forall k ensures Visited(es, k) <==> k in IndexKeys(|es|) {
      if Visited(es, k) {
        var i :| 0 <= i < |es| && es[i].0 == k;
        assert k == DecimalString(i);
      }
      if k in IndexKeys(|es|) {
        var i :| 0 <= i < |es| && k == DecimalString(i);
        assert es[i].0 == k;
      }
    }
  }

  /** For an array or string document the `lib` map has one key per position, the
      position's decimal spelling, bound to the action of the element there (for
      a string, the one-character string). */
  lemma LibIndexedDocument(configObject: Value, m: map<string, LabelAction>)
    requires (configObject.Arr? || configObject.Str?) && Resolve(configObject, Lib) == Ok(m)
    ensures var n := if configObject.Arr? then |configObject.items| else |configObject.s|;
      && m.Keys == IndexKeys(n)
      && (forall i :: 0 <= i < n ==>
            DecimalString(i) in m &&
            Ok(m[DecimalString(i)]) == ActionFor(DecimalString(i),
              if configObject.Arr? then configObject.items[i] else Str([configObject.s[i]])))
  {
    var es := ForInEntries(configObject);
    ForInIndexed(configObject);
    IndexLabels(es);
    LibKeys(es, m);
    LibDistinctLabels(es, m);
    assert m.Keys == IndexKeys(|es|);
  }
}
