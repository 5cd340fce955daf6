/** `PreparableMixin`: a module lists the attributes its `_prepare` hook must set; it counts as
    prepared once none of them is None. `prepare` runs the hook at most once and then the
    `_post_prepare` hook; `post_prepare` runs only the second hook, and only on a prepared module.
    The hooks themselves belong to subclasses: `_prepare` is given as the attributes it sets, and
    `_post_prepare` is counted. */
module ModuleMixins {
  import opened Wrappers
  import opened PyLists
  import opened PyDicts
  import opened FieldValues

  const NOT_PREPARED := "The module is not prepared."
  const UNSET_PREFIX := " Required attributes that are not set: "
  const PREPARE_FAILED := "_prepare() was called, but the module is not prepared."

  /** `getattr(self, attribute, None)` */
  function Getattr(attrs: map<string, Value>, name: string): Value {
    if name in attrs then attrs[name] else NoneV
  }

  /** `is_prepared`: every listed attribute is set to something other than None. */
  predicate IsPrepared(names: seq<string>, attrs: map<string, Value>) {
    forall i :: 0 <= i < |names| ==> Getattr(attrs, names[i]) != NoneV
  }

  /** The listed attributes that are still None, in list order. */
  function Unset(names: seq<string>, attrs: map<string, Value>): (r: seq<string>)
    ensures forall n :: n in r <==> n in names && Getattr(attrs, n) == NoneV
    ensures r == [] <==> IsPrepared(names, attrs)
  {
    var r := Filter(names, n => Getattr(attrs, n) == NoneV);
    assert forall i :: 0 <= i < |names| && Getattr(attrs, names[i]) == NoneV ==> names[i] in r;
    if r != [] then assert r[0] in r; r else r
  }

  /** `str(list_of_names)` for names without quotes in them. */
  function NamesRepr(names: seq<string>): string {
    "[" + Join(", ", seq(|names|, i requires 0 <= i < |names| => "'" + names[i] + "'")) + "]"
  }

  /** The message `_assert_is_prepared` raises: the caller's message (or nothing) and the names
      still unset. */
  function UnsetMessage(msg: Option<string>, unset: seq<string>): string {
    msg.GetOr("") + UNSET_PREFIX + NamesRepr(unset)
  }

  /** The dict comprehension over the listed attributes: each name with its value, in list order. */
  function Settings(names: seq<string>, attrs: map<string, Value>): (d: PyDict<string, Value>)
    ensures Valid(d)
    ensures forall n :: n in Keys(d) <==> n in names
    ensures forall n :: n in names ==> Get(d, n) == Some(Getattr(attrs, n))
    decreases |names|
  {
    if names == [] then []
    else
      var init := names[..|names| - 1];
      var d := Settings(init, attrs);
      var n := names[|names| - 1];
      var r := Put(d, n, Getattr(attrs, n));
      PutValid(d, n, Getattr(attrs, n));
      assert names == init + [n];
      assert forall m :: m in names ==> Get(r, m) == Some(Getattr(attrs, m)) by {
        forall m | m in names ensures Get(r, m) == Some(Getattr(attrs, m)) {
          if m != n {
            PutOther(d, n, Getattr(attrs, n), m);
          }
        }
      }
      r
  }

  /** `prepared_attributes`: the listed attributes with their values, or an Exception when the
      module is not prepared. */
  function PreparedAttributes(names: seq<string>, attrs: map<string, Value>): (r: Result<PyDict<string, Value>>)
    ensures r.Failure? <==> !IsPrepared(names, attrs)
    ensures r.Failure? ==> r.error == Exception(NOT_PREPARED)
    ensures r.Success? ==> Valid(r.value) && (forall n :: n in Keys(r.value) <==> n in names)
    ensures r.Success? ==> forall n :: n in names ==> Get(r.value, n).Some? && Get(r.value, n).value == attrs[n] &&
                                                      attrs[n] != NoneV
  {
    if !IsPrepared(names, attrs) then Failure(Exception(NOT_PREPARED)) else Success(Settings(names, attrs))
  }

  /** `_assert_is_prepared(msg)` */
  function AssertIsPrepared(names: seq<string>, attrs: map<string, Value>, msg: Option<string>): (r: Outcome)
    ensures r.Pass? <==> IsPrepared(names, attrs)
    ensures r.Fail? ==> r.error == Exception(UnsetMessage(msg, Unset(names, attrs))) && Unset(names, attrs) != []
  {
    if IsPrepared(names, attrs) then Pass else Fail(Exception(UnsetMessage(msg, Unset(names, attrs))))
  }

  /** The warning `prepare` logs on a module that is already prepared, with every listed setting. */
  datatype Warning = AlreadyPrepared(settings: PyDict<string, Value>)

  /** What a module's preparation consists of: its attribute values, how often each hook ran and the
      warnings logged. */
  datatype MixinState = MixinState(attrs: map<string, Value>, prepareCalls: nat, postPrepareCalls: nat,
                                   warnings: seq<Warning>)

  /** `prepare(*args)` on a prepared module: `_prepare` is skipped, the settings are logged when
      some attribute is listed, and `_post_prepare` runs. */
  function SkipPrepare(names: seq<string>, s: MixinState): MixinState {
    var warnings := if |names| > 0 then s.warnings + [AlreadyPrepared(Settings(names, s.attrs))] else s.warnings;
    s.(postPrepareCalls := s.postPrepareCalls + 1, warnings := warnings)
  }

  /** `prepare(*args)` on an unprepared module: `_prepare` sets `effect`, then the module must be
      prepared before `_post_prepare` runs. */
  function RunPrepare(names: seq<string>, s: MixinState, effect: map<string, Value>): (MixinState, Outcome) {
    var attrs := s.attrs + effect;
    var s' := s.(attrs := attrs, prepareCalls := s.prepareCalls + 1);
    match AssertIsPrepared(names, attrs, Some(PREPARE_FAILED))
    case Fail(e) => (s', Fail(e))
    case Pass => (s'.(postPrepareCalls := s'.postPrepareCalls + 1), Pass)
  }

  /** `prepare(*args)`, where `effect` stands for the attributes `_prepare(*args)` sets. */
  function PrepareStep(names: seq<string>, s: MixinState, effect: map<string, Value>): (MixinState, Outcome) {
    if IsPrepared(names, s.attrs) then (SkipPrepare(names, s), Pass) else RunPrepare(names, s, effect)
  }

  /** `post_prepare()` */
  function PostPrepareStep(names: seq<string>, s: MixinState): (MixinState, Outcome) {
    match AssertIsPrepared(names, s.attrs, None)
    case Fail(e) => (s, Fail(e))
    case Pass => (s.(postPrepareCalls := s.postPrepareCalls + 1), Pass)
  }

  /** A module with no listed attributes is always prepared. */
  lemma NothingListed(attrs: map<string, Value>)
    ensures IsPrepared([], attrs) && Unset([], attrs) == []
  {
  }

  /** `prepare` on a prepared module leaves the attributes alone and skips `_prepare`; it warns
      exactly when some attribute is listed, and always runs `_post_prepare`. */
  lemma PrepareWhenPrepared(names: seq<string>, s: MixinState, effect: map<string, Value>)
    requires IsPrepared(names, s.attrs)
    ensures var (s', o) := PrepareStep(names, s, effect);
            o == Pass && s'.attrs == s.attrs && s'.prepareCalls == s.prepareCalls &&
            s'.postPrepareCalls == s.postPrepareCalls + 1 &&
            (|names| > 0 <==> |s'.warnings| == |s.warnings| + 1) &&
            (|names| > 0 ==> s'.warnings[|s.warnings|].settings == PreparedAttributes(names, s.attrs).value)
  {
  }

  /** `prepare` on an unprepared module runs `_prepare` once; it succeeds exactly when that leaves
      the module prepared, names every attribute still None otherwise, and runs `_post_prepare` only
      on success. */
  lemma PrepareWhenUnprepared(names: seq<string>, s: MixinState, effect: map<string, Value>)
    requires !IsPrepared(names, s.attrs)
    ensures var (s', o) := PrepareStep(names, s, effect);
            s'.attrs == s.attrs + effect && s'.prepareCalls == s.prepareCalls + 1 && s'.warnings == s.warnings &&
            (o.Pass? <==> IsPrepared(names, s'.attrs)) &&
            (o.Fail? ==> o.error == Exception(UnsetMessage(Some(PREPARE_FAILED), Unset(names, s'.attrs))) &&
                         s'.postPrepareCalls == s.postPrepareCalls) &&
            (o.Pass? ==> s'.postPrepareCalls == s.postPrepareCalls + 1)
  {
  }

  /** Preparing twice runs `_prepare` at most once: after a successful `prepare`, another one
      changes no attribute, whatever its hook would set. */
  lemma PrepareOnce(names: seq<string>, s: MixinState, first: map<string, Value>, second: map<string, Value>)
    requires PrepareStep(names, s, first).1.Pass?
    ensures var s1 := PrepareStep(names, s, first).0;
            var (s2, o) := PrepareStep(names, s1, second);
            o.Pass? && s2.attrs == s1.attrs && s2.prepareCalls == s1.prepareCalls &&
            s1.prepareCalls <= s.prepareCalls + 1
  {
    var s1 := PrepareStep(names, s, first).0;
    if !IsPrepared(names, s.attrs) {
      PrepareWhenUnprepared(names, s, first);
    }
    assert IsPrepared(names, s1.attrs);
    PrepareWhenPrepared(names, s1, second);
  }

  /** `post_prepare` fails on an unprepared module without running the hook. */
  lemma PostPrepareChecks(names: seq<string>, s: MixinState)
    ensures var (s', o) := PostPrepareStep(names, s);
            (o.Pass? <==> IsPrepared(names, s.attrs)) && s'.attrs == s.attrs &&
            s'.postPrepareCalls == s.postPrepareCalls + (if o.Pass? then 1 else 0)
  {
  }

  class Preparable {
    /** `PREPARED_ATTRIBUTES` */
    const names: seq<string>
    var attrs: map<string, Value>
    var prepareCalls: nat
    var postPrepareCalls: nat
    var warnings: seq<Warning>

    constructor (names: seq<string>, attrs: map<string, Value>)
      ensures this.names == names && State() == MixinState(attrs, 0, 0, [])
    {
      this.names := names;
      this.attrs := attrs;
      prepareCalls := 0;
      postPrepareCalls := 0;
      warnings := [];
    }

    function State(): MixinState
      reads this
    {
      MixinState(attrs, prepareCalls, postPrepareCalls, warnings)
    }

    method PostPrepare() returns (o: Outcome)
      modifies this
      ensures (State(), o) == PostPrepareStep(names, old(State()))
    {
      o := AssertIsPrepared(names, attrs, None);
      if o.Pass? {
        postPrepareCalls := postPrepareCalls + 1;
      }
    }

    /** `prepare(*args)`; `effect` is what `_prepare(*args)` sets. */
    method Prepare(effect: map<string, Value>) returns (o: Outcome)
      modifies this
      ensures (State(), o) == PrepareStep(names, old(State()), effect)
    {
      ghost var s := State();
      if IsPrepared(names, attrs) {
        if |names| > 0 {
          var settings := PreparedAttributes(names, attrs);
          assert settings.value == Settings(names, s.attrs);
          warnings := warnings + [AlreadyPrepared(settings.value)];
        }
        postPrepareCalls := postPrepareCalls + 1;
        o := Pass;
        assert State() == SkipPrepare(names, s);
      } else {
        attrs := attrs + effect;
        prepareCalls := prepareCalls + 1;
        o := AssertIsPrepared(names, attrs, Some(PREPARE_FAILED));
        if o.Pass? {
          postPrepareCalls := postPrepareCalls + 1;
        }
        assert (State(), o) == RunPrepare(names, s, effect);
      }
    }
  }
}
