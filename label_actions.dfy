/** The action record configured for one label, and the validation that turns
    one label's entry of the configuration document into such a record
    (the body of the `for ... in` loop of `getLabelActionMapFromObject`). */
module LabelActions {
  import opened Wrappers
  import opened ConfigTree

  /** The four lock reasons the source declares. Nothing checks a configured
      `lockReason` against them (see LockReasonAnyString). */
  const LockReasons: set<string> := {"off-topic", "too heated", "resolved", "spam"}

  /** One label's action. `None` stands for a field left `undefined`; `labels` is
      the configured array as it is, whatever its elements are. */
  datatype LabelAction = LabelAction(
    comment: Option<string>,
    close: bool,
    reopen: bool,
    lock: bool,
    lockReason: Option<string>,
    labels: seq<Value>)

  /** The record every label starts from. */
  const Defaults: LabelAction := LabelAction(None, false, false, false, None, [])

  /** The six recognised options of a label entry. */
  datatype OptionName = Comment | Close | Reopen | Lock | LockReason | Labels

  /** The number of recognised options. */
  const OptionCount: nat := 6

  /** The position of an option in the order the resolver examines them. */
  function Index(o: OptionName): (i: nat)
    ensures i < OptionCount
  {
    match o
    case Comment => 0
    case Close => 1
    case Reopen => 2
    case Lock => 3
    case LockReason => 4
    case Labels => 5
  }

  /** The option examined at position `i`. */
  function OptionAt(i: nat): (o: OptionName)
    requires i < OptionCount
    ensures Index(o) == i
  {
    if i == 0 then Comment
    else if i == 1 then Close
    else if i == 2 then Reopen
    else if i == 3 then Lock
    else if i == 4 then LockReason
    else Labels
  }

  /** The property name of an option in the document. */
  function Key(o: OptionName): (k: string)
  {
    match o
    case Comment => "comment"
    case Close => "close"
    case Reopen => "reopen"
    case Lock => "lock"
    case LockReason => "lockReason"
    case Labels => "labels"
  }

  /** The type test the resolver applies to an option's value:
      `typeof ... === "string"`, `typeof ... === "boolean"` or `Array.isArray`. */
  predicate Accepts(o: OptionName, v: Value)
  {
    match o
    case Comment => v.Str?
    case LockReason => v.Str?
    case Close => v.Bool?
    case Reopen => v.Bool?
    case Lock => v.Bool?
    case Labels => v.Arr?
  }

  /** The value of option `o` when the entry owns that property. */
  function Field(entry: Value, o: OptionName): (r: Option<Value>)
  {
    OwnField(entry, Key(o))
  }

  /** The entry owns option `o` with a value of the wrong type. */
  predicate Mistyped(entry: Value, o: OptionName)
  {
    Field(entry, o).Some? && !Accepts(o, Field(entry, o).value)
  }

  /** The record an entry describes: each owned option's value, and the default
      for every option the entry does not own (or owns with a wrong type). */
  function Validated(entry: Value): (v: LabelAction)
  {
    var comment, close, reopen := Field(entry, Comment), Field(entry, Close), Field(entry, Reopen);
    var lock, lockReason, labels := Field(entry, Lock), Field(entry, LockReason), Field(entry, Labels);
    LabelAction(
      comment := if comment.Some? && comment.value.Str? then Some(comment.value.s) else None,
      close := close.Some? && close.value.Bool? && close.value.b,
      reopen := reopen.Some? && reopen.value.Bool? && reopen.value.b,
      lock := lock.Some? && lock.value.Bool? && lock.value.b,
      lockReason := if lockReason.Some? && lockReason.value.Str? then Some(lockReason.value.s) else None,
      labels := if labels.Some? && labels.value.Arr? then labels.value.items else [])
  }

  /** Why resolving the document failed: a label entry that is `null` or
      `undefined` (reading its `hasOwnProperty` throws a TypeError), a label entry
      owning a `hasOwnProperty` property (calling it throws a TypeError), or a
      recognised option of a label with a value of the wrong type. */
  datatype ResolveError =
    | NotAnObject(labelName: string)
    | NotCallable(labelName: string)
    | WrongType(labelName: string, option: OptionName)

  /** Overwrite the field of option `o` with a value of the accepted type. */
  function Assign(acc: LabelAction, o: OptionName, v: Value): (r: LabelAction)
    requires Accepts(o, v)
  {
    match o
    case Comment => acc.(comment := Some(v.s))
    case Close => acc.(close := v.b)
    case Reopen => acc.(reopen := v.b)
    case Lock => acc.(lock := v.b)
    case LockReason => acc.(lockReason := Some(v.s))
    case Labels => acc.(labels := v.items)
  }

  /** One guarded block of the resolver: an option the entry does not own leaves
      the record alone, an owned option of the accepted type overwrites its field,
      and an owned option of any other type throws. */
  function CheckOption(labelName: string, entry: Value, o: OptionName, acc: LabelAction): (r: Result<LabelAction, ResolveError>)
  {
    match Field(entry, o)
    case None => Ok(acc)
    case Some(v) => if Accepts(o, v) then Ok(Assign(acc, o, v)) else Err(WrongType(labelName, o))
  }

  /** The guarded blocks from position `i` on, in order; the first throw ends the run. */
  function CheckFrom(labelName: string, entry: Value, i: nat, acc: LabelAction): (r: Result<LabelAction, ResolveError>)
    decreases OptionCount - i
  {
    if i >= OptionCount then Ok(acc)
    else match CheckOption(labelName, entry, OptionAt(i), acc)
      case Err(e) => Err(e)
      case Ok(a) => CheckFrom(labelName, entry, i + 1, a)
  }

  /** One label's validation as the resolver performs it: a nullish entry, or one
      that shadows `hasOwnProperty`, throws at its first `hasOwnProperty` call;
      otherwise the six guarded blocks run on the defaults. ActionForMeaning
      relates the result to `Validated`. */
  function ActionFor(labelName: string, entry: Value): (r: Result<LabelAction, ResolveError>)
  {
    if Nullish(entry) then Err(NotAnObject(labelName))
    else if HasOwnPropertyShadowed(entry) then Err(NotCallable(labelName))
    else CheckFrom(labelName, entry, 0, Defaults)
  }

  /** One guarded block of the loop body: `if (entry.hasOwnProperty(key))`, then
      either the type test passes and the field is overwritten, or it throws. */
  method CheckOptionStep(labelName: string, entry: Value, o: OptionName, labelAction: LabelAction)
    returns (r: Result<LabelAction, ResolveError>)
    ensures r == CheckOption(labelName, entry, o, labelAction)
  {
    var f := Field(entry, o);
    if f.Some? {
      if Accepts(o, f.value) {
        return Ok(Assign(labelAction, o, f.value));
      } else {
        return Err(WrongType(labelName, o));
      }
    }
    return Ok(labelAction);
  }

  /** The loop body of `getLabelActionMapFromObject`: start from the defaults and,
      option by option, when the entry owns the option either overwrite the field
      with a value of the accepted type or throw. */
  method BuildLabelAction(labelName: string, entry: Value) returns (r: Result<LabelAction, ResolveError>)
    ensures r == ActionFor(labelName, entry)
  {
    if Nullish(entry) {
      return Err(NotAnObject(labelName));
    }
    if HasOwnPropertyShadowed(entry) {
      return Err(NotCallable(labelName));
    }
    var labelAction := Defaults;
    var step: Result<LabelAction, ResolveError>;
    step := CheckOptionStep(labelName, entry, Comment, labelAction);
    if step.Err? {
      return step;
    }
    labelAction := step.value;
    assert ActionFor(labelName, entry) == CheckFrom(labelName, entry, 1, labelAction);
    step := CheckOptionStep(labelName, entry, Close, labelAction);
    if step.Err? {
      return step;
    }
    labelAction := step.value;
    assert ActionFor(labelName, entry) == CheckFrom(labelName, entry, 2, labelAction);
    step := CheckOptionStep(labelName, entry, Reopen, labelAction);
    if step.Err? {
      return step;
    }
    labelAction := step.value;
    assert ActionFor(labelName, entry) == CheckFrom(labelName, entry, 3, labelAction);
    step := CheckOptionStep(labelName, entry, Lock, labelAction);
    if step.Err? {
      return step;
    }
    labelAction := step.value;
    assert ActionFor(labelName, entry) == CheckFrom(labelName, entry, 4, labelAction);
    step := CheckOptionStep(labelName, entry, LockReason, labelAction);
    if step.Err? {
      return step;
    }
    labelAction := step.value;
    assert ActionFor(labelName, entry) == CheckFrom(labelName, entry, 5, labelAction);
    step := CheckOptionStep(labelName, entry, Labels, labelAction);
    if step.Err? {
      return step;
    }
    labelAction := step.value;
    assert ActionFor(labelName, entry) == CheckFrom(labelName, entry, 6, labelAction);
    return Ok(labelAction);
  }

  /** The record after the first `i` options: those fields as in `v`, the others
      still at their defaults. */
  function Prefix(v: LabelAction, i: nat): (r: LabelAction)
  {
    LabelAction(
      comment := if i > 0 then v.comment else None,
      close := i > 1 && v.close,
      reopen := i > 2 && v.reopen,
      lock := i > 3 && v.lock,
      lockReason := if i > 4 then v.lockReason else None,
      labels := if i > 5 then v.labels else [])
  }

  /** A block whose option is mistyped throws, whatever the record so far. */
  lemma MistypedBlockThrows(labelName: string, entry: Value, o: OptionName, acc: LabelAction)
    requires Mistyped(entry, o)
    ensures CheckOption(labelName, entry, o, acc) == Err(WrongType(labelName, o))
  {
  }

  /** A block whose option is not mistyped copies that option's field of the
      validated record into a record holding the earlier fields. */
  lemma CheckOptionCopiesField(labelName: string, entry: Value, i: nat)
    requires i < OptionCount && !Mistyped(entry, OptionAt(i))
    ensures CheckOption(labelName, entry, OptionAt(i), Prefix(Validated(entry), i)) == Ok(Prefix(Validated(entry), i + 1))
  {
    var v := Validated(entry);
    if i == 0 {
      assert CheckOption(labelName, entry, Comment, Prefix(v, i)) == Ok(Prefix(v, i + 1));
    } else if i == 1 {
      assert CheckOption(labelName, entry, Close, Prefix(v, i)) == Ok(Prefix(v, i + 1));
    } else if i == 2 {
      assert CheckOption(labelName, entry, Reopen, Prefix(v, i)) == Ok(Prefix(v, i + 1));
    } else if i == 3 {
      assert CheckOption(labelName, entry, Lock, Prefix(v, i)) == Ok(Prefix(v, i + 1));
    } else if i == 4 {
      assert CheckOption(labelName, entry, LockReason, Prefix(v, i)) == Ok(Prefix(v, i + 1));
    } else {
      assert CheckOption(labelName, entry, Labels, Prefix(v, i)) == Ok(Prefix(v, i + 1));
    }
  }

  /** Block `i`, run on a record holding the earlier validated fields, throws a
      wrong-type error for its option when that option is mistyped, and otherwise
      copies the option's validated field into the record. */
  lemma CheckOptionExtendsPrefix(labelName: string, entry: Value, i: nat)
    requires i < OptionCount
    ensures Mistyped(entry, OptionAt(i)) ==>
      CheckOption(labelName, entry, OptionAt(i), Prefix(Validated(entry), i)) == Err(WrongType(labelName, OptionAt(i)))
    ensures !Mistyped(entry, OptionAt(i)) ==>
      CheckOption(labelName, entry, OptionAt(i), Prefix(Validated(entry), i)) == Ok(Prefix(Validated(entry), i + 1))
  {
    if Mistyped(entry, OptionAt(i)) {
      MistypedBlockThrows(labelName, entry, OptionAt(i), Prefix(Validated(entry), i));
    } else {
      CheckOptionCopiesField(labelName, entry, i);
    }
  }

  /** From position `i` on, with the record holding the first `i` fields of the
      validated record, the run succeeds exactly when no option at or after `i` is
      mistyped, and then yields the validated record. */
  lemma {:induction false} CheckFromOk(labelName: string, entry: Value, i: nat)
    requires i <= OptionCount
    ensures var r := CheckFrom(labelName, entry, i, Prefix(Validated(entry), i));
      && (r.Ok? <==> forall o :: Index(o) >= i ==> !Mistyped(entry, o))
      && (r.Ok? ==> r.value == Validated(entry))
    decreases OptionCount - i
  {
    var v := Validated(entry);
    if i < OptionCount {
      var o := OptionAt(i);
      if Mistyped(entry, o) {
        assert CheckFrom(labelName, entry, i, Prefix(v, i)) == Err(WrongType(labelName, o));
      } else {
        CheckOptionExtendsPrefix(labelName, entry, i);
        CheckFromOk(labelName, entry, i + 1);
      }
    } else {
      PrefixAll(v);
    }
  }

  /** All six fields copied: the record itself. */
  lemma PrefixAll(v: LabelAction)
    ensures Prefix(v, OptionCount) == v
  {
  }

  /** From position `i` on, with the record holding the first `i` fields of the
      validated record, the run throws exactly the wrong-type error of the first
      mistyped option at or after `i`. */
  lemma {:induction false} CheckFromErr(labelName: string, entry: Value, i: nat, o: OptionName)
    requires i <= OptionCount
    ensures CheckFrom(labelName, entry, i, Prefix(Validated(entry), i)) == Err(WrongType(labelName, o)) <==>
      Index(o) >= i && Mistyped(entry, o) && forall p :: i <= Index(p) < Index(o) ==> !Mistyped(entry, p)
    decreases OptionCount - i
  {
    if i < OptionCount {
      var q := OptionAt(i);
      if Mistyped(entry, q) {
        assert CheckFrom(labelName, entry, i, Prefix(Validated(entry), i)) == Err(WrongType(labelName, q));
      } else {
        CheckOptionExtendsPrefix(labelName, entry, i);
        CheckFromErr(labelName, entry, i + 1, o);
      }
    }
  }

  /** Every throw of the blocks names the label and is a wrong-type error. */
  lemma {:induction false} CheckFromNamesLabel(labelName: string, entry: Value, i: nat, acc: LabelAction)
    ensures var r := CheckFrom(labelName, entry, i, acc);
      r.Err? ==> r.error.WrongType? && r.error.labelName == labelName
    decreases OptionCount - i
  {
    if i < OptionCount {
      match CheckOption(labelName, entry, OptionAt(i), acc)
      case Err(_) =>
      case Ok(a) => CheckFromNamesLabel(labelName, entry, i + 1, a);
    }
  }

  /** What one label's validation yields, stated without the order of the blocks:
      a nullish entry fails as such, and so does an entry that shadows
      `hasOwnProperty`; otherwise validation succeeds exactly when no recognised
      option is mistyped, with the validated record, and fails naming the label and
      the first mistyped option in check order. */
  lemma ActionForMeaning(labelName: string, entry: Value)
    ensures Nullish(entry) ==> ActionFor(labelName, entry) == Err(NotAnObject(labelName))
    ensures !Nullish(entry) && HasOwnPropertyShadowed(entry) ==> ActionFor(labelName, entry) == Err(NotCallable(labelName))
    ensures ActionFor(labelName, entry).Ok? <==>
      !Nullish(entry) && !HasOwnPropertyShadowed(entry) && forall o :: !Mistyped(entry, o)
    ensures ActionFor(labelName, entry).Ok? ==> ActionFor(labelName, entry).value == Validated(entry)
    ensures forall o :: ActionFor(labelName, entry) == Err(WrongType(labelName, o)) <==>
      && !Nullish(entry) && !HasOwnPropertyShadowed(entry)
      && Mistyped(entry, o) && forall p :: Index(p) < Index(o) ==> !Mistyped(entry, p)
    ensures ActionFor(labelName, entry).Err? ==> ActionFor(labelName, entry).error.labelName == labelName
  {
    assert Prefix(Validated(entry), 0) == Defaults;
    CheckFromOk(labelName, entry, 0);
    CheckFromNamesLabel(labelName, entry, 0, Defaults);
    forall o ensures ActionFor(labelName, entry) == Err(WrongType(labelName, o)) <==>
      && !Nullish(entry) && !HasOwnPropertyShadowed(entry)
      && Mistyped(entry, o) && forall p :: Index(p) < Index(o) ==> !Mistyped(entry, p)
    {
      CheckFromErr(labelName, entry, 0, o);
    }
  }

  /** Only the six recognised options and the `hasOwnProperty` key matter: two
      non-nullish entries that agree on them (whatever other keys either has)
      validate alike. */
  lemma OnlyRecognisedOptionsMatter(labelName: string, e1: Value, e2: Value)
    requires !Nullish(e1) && !Nullish(e2)
    requires HasOwnPropertyShadowed(e1) == HasOwnPropertyShadowed(e2)
    requires forall o :: Field(e1, o) == Field(e2, o)
    ensures ActionFor(labelName, e1) == ActionFor(labelName, e2)
  {
    if !HasOwnPropertyShadowed(e1) {
      CheckFromCongruent(labelName, e1, e2, 0, Defaults);
    }
  }

  lemma {:induction false} CheckFromCongruent(labelName: string, e1: Value, e2: Value, i: nat, acc: LabelAction)
    requires forall o :: Field(e1, o) == Field(e2, o)
    ensures CheckFrom(labelName, e1, i, acc) == CheckFrom(labelName, e2, i, acc)
    decreases OptionCount - i
  {
    if i < OptionCount {
      assert CheckOption(labelName, e1, OptionAt(i), acc) == CheckOption(labelName, e2, OptionAt(i), acc);
      match CheckOption(labelName, e1, OptionAt(i), acc)
      case Err(_) =>
      case Ok(a) => CheckFromCongruent(labelName, e1, e2, i + 1, a);
    }
  }

  /** A key that is neither one of the six recognised names nor `hasOwnProperty`
      is ignored: adding it to an object entry changes nothing. */
  lemma UnknownKeyIgnored(labelName: string, entry: Value, k: string, x: Value)
    requires entry.Obj?
    requires k != HasOwnPropertyKey && forall o :: k != Key(o)
    ensures ActionFor(labelName, Obj(entry.fields[k := x], WithKey(entry.order, k))) == ActionFor(labelName, entry)
  {
    OnlyRecognisedOptionsMatter(labelName, Obj(entry.fields[k := x], WithKey(entry.order, k)), entry);
  }

  /** A non-nullish entry that is not an object (a string, a number, a boolean or
      an array) owns none of the six properties and yields the defaults. */
  lemma ScalarEntryYieldsDefaults(labelName: string, entry: Value)
    requires !Nullish(entry) && !entry.Obj?
    ensures ActionFor(labelName, entry) == Ok(Defaults)
  {
    ActionForMeaning(labelName, entry);
  }

  /** An object entry without any recognised option, and not owning
      `hasOwnProperty`, yields the defaults. */
  lemma NoOptionsYieldsDefaults(labelName: string, entry: Value)
    requires entry.Obj? && HasOwnPropertyKey !in entry.fields && forall o :: Key(o) !in entry.fields
    ensures ActionFor(labelName, entry) == Ok(Defaults)
  {
    ActionForMeaning(labelName, entry);
  }

  /** Adding a `hasOwnProperty` key, of any value, to an object entry makes its
      validation throw, whatever options the entry has. */
  lemma OwnedHasOwnPropertyThrows(labelName: string, entry: Value, x: Value)
    requires entry.Obj?
    ensures ActionFor(labelName, Obj(entry.fields[HasOwnPropertyKey := x], WithKey(entry.order, HasOwnPropertyKey)))
      == Err(NotCallable(labelName))
  {
  }

  /** A recognised option with a wrong-typed value makes validation fail for this
      label: with a wrong-type error naming that option or an earlier one, or,
      when the entry shadows `hasOwnProperty`, before any option is examined. */
  lemma MistypedOptionFails(labelName: string, entry: Value, o: OptionName)
    requires !Nullish(entry) && Mistyped(entry, o)
    ensures var r := ActionFor(labelName, entry);
      && r.Err? && r.error.labelName == labelName
      && (r.error.NotCallable? <==> HasOwnPropertyShadowed(entry))
      && (r.error.WrongType? <==> !HasOwnPropertyShadowed(entry))
      && (r.error.WrongType? ==> Index(r.error.option) <= Index(o))
  {
    ActionForMeaning(labelName, entry);
    var r := ActionFor(labelName, entry);
    if !HasOwnPropertyShadowed(entry) {
      assert r.error.WrongType?;
      assert r == Err(WrongType(labelName, r.error.option));
    }
  }

  /** A `lockReason` is accepted as any string: an entry whose other options are
      well typed validates, and keeps the value, even one that is not among the
      four declared reasons. */
  lemma LockReasonAnyString(labelName: string, entry: Value, s: string)
    requires !Nullish(entry) && !HasOwnPropertyShadowed(entry)
    requires Field(entry, LockReason) == Some(Str(s))
    requires forall o :: o != LockReason ==> !Mistyped(entry, o)
    ensures ActionFor(labelName, entry).Ok?
    ensures ActionFor(labelName, entry).value.lockReason == Some(s)
  {
    ActionForMeaning(labelName, entry);
  }

  /** `labels` is accepted as any array: an entry whose other options are well
      typed validates, and keeps the elements as they are, of whatever type. */
  lemma LabelsAnyArray(labelName: string, entry: Value, items: seq<Value>)
    requires !Nullish(entry) && !HasOwnPropertyShadowed(entry)
    requires Field(entry, Labels) == Some(Arr(items))
    requires forall o :: o != Labels ==> !Mistyped(entry, o)
    ensures ActionFor(labelName, entry).Ok?
    ensures ActionFor(labelName, entry).value.labels == items
  {
    ActionForMeaning(labelName, entry);
  }

  /** A lock reason outside the declared four passes validation. */
  lemma UndeclaredLockReasonAccepted(labelName: string)
    ensures "because" !in LockReasons
    ensures ActionFor(labelName, Obj(map["lockReason" := Str("because")], ["lockReason"]))
      == Ok(Defaults.(lockReason := Some("because")))
  {
    var entry := Obj(map["lockReason" := Str("because")], ["lockReason"]);
    assert Field(entry, LockReason) == Some(Str("because"));
    assert forall o :: o != LockReason ==> Field(entry, o) == None;
  }

  /** `close: "yes"` is rejected with an error naming the label and `close`. */
  lemma CloseYesRejected()
    ensures ActionFor("bug", Obj(map["close" := Str("yes")], ["close"])) == Err(WrongType("bug", Close))
  {
    ActionForMeaning("bug", Obj(map["close" := Str("yes")], ["close"]));
  }
}
