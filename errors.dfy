/**
 * Classified errors and their unwrap chains (error.go), together with the
 * parts of pkg/errors that they rely on: `errors.New` and `errors.Wrap`, and
 * `errors.Unwrap`, `errors.As` and `errors.Is`, which pkg/errors forwards to
 * Go's standard `errors` package.
 *
 * A Go `error` value is an `Option<Err>` (None is nil). Every link that Go
 * allocates on the heap carries an address, so that the pointer comparison
 * done by `errors.Is` is Dafny equality, provided distinct allocations get
 * distinct addresses. Addresses are parameters of the operations that allocate.
 */
module Errors {
  import opened Optional
  import opened KV
  import ContextParams

  /** The tag an error is classified under; the empty tag means unclassified. */
  datatype ErrType = ErrType(name: string)
  {
    function String(): string { name }

    predicate IsEmpty() { |name| == 0 }
  }

  /** How an `errorDto` is held inside an interface value. */
  datatype Ref = ByPointer(addr: nat) | ByValue

  datatype Err =
    | /** A pkg/errors `New` error (`*fundamental`): a message without a cause. */
      Native(msg: string, addr: nat)
    | /** A pkg/errors `Wrap` link. */
      Wrapped(msg: string, cause: Err, addr: nat)
    | /** An `errorDto`, held by pointer or by value. */
      Dto(d: ErrorDto, ref: Ref)

  /** The fields of `errorDto`: the native error (possibly nil), the tag and the parameters. */
  datatype ErrorDto = ErrorDto(err: Option<Err>, errType: ErrType, params: seq<KVParam>)

  /** A value of the `Error` interface: both `errorDto` and `*errorDto` implement it. */
  type Classified = e: Err | e.Dto? witness Dto(ErrorDto(None, ErrType(""), []), ByValue)

  const NIL_ERROR_TEXT := "ERROR!!! native error is nil"

  // ---------------------------------------------------------------------------
  // The chain: errors.Unwrap, errors.As, errors.Is
  // ---------------------------------------------------------------------------

  /** The number of links nested in `e`, a measure for walking chains. */
  function Size(e: Err): nat
  {
    match e
    case Native(_, _) => 1
    case Wrapped(_, cause, _) => 1 + Size(cause)
    case Dto(d, _) => if d.err.Some? then 1 + Size(d.err.value) else 1
  }

  /**
   * `errors.Unwrap(e)`: a native error has no cause, a wrap link reports its
   * cause, and an `errorDto` reports `errors.Unwrap` of its inner error, so the
   * inner error itself is skipped.
   */
  function Unwrap(e: Err): (r: Option<Err>)
    ensures r.Some? ==> Size(r.value) < Size(e)
  {
    match e
    case Native(_, _) => None
    case Wrapped(_, cause, _) => Some(cause)
    case Dto(d, _) => if d.err.Some? then Unwrap(d.err.value) else None
  }

  function ChainMeasure(err: Option<Err>): nat
  {
    if err.Some? then Size(err.value) else 0
  }

  /** The links visited from `err` by repeated `errors.Unwrap`, starting with `err` itself. */
  function Chain(err: Option<Err>): (c: seq<Err>)
    ensures err.None? <==> c == []
    ensures err.Some? ==> c[0] == err.value
    decreases ChainMeasure(err)
  {
    if err.None? then [] else [err.value] + Chain(Unwrap(err.value))
  }

  /** No link of a chain is larger than where the chain starts. */
  lemma {:induction false} ChainSizeBound(err: Option<Err>)
    ensures err.Some? ==> forall l :: l in Chain(err) ==> Size(l) <= Size(err.value)
    decreases ChainMeasure(err)
  {
    if err.Some? {
      ChainSizeBound(Unwrap(err.value));
    }
  }

  /** The three target types of the `errors.As` calls in error.go. */
  datatype Target =
    | /** the interface `Error`, met by `errorDto` and `*errorDto` */
      AnyClassified
    | /** `*errorDto` */
      PointerClassified
    | /** the value type `errorDto` */
      ValueClassified

  predicate Matches(e: Err, target: Target)
  {
    e.Dto? &&
    match target
    case AnyClassified => true
    case PointerClassified => e.ref.ByPointer?
    case ValueClassified => e.ref.ByValue?
  }

  /** `errors.As(err, &target)`: the first link of the chain assignable to the target type. */
  function As(err: Option<Err>, target: Target): (r: Option<Err>)
    ensures r.Some? ==> Matches(r.value, target) && r.value in Chain(err)
    ensures r.None? <==> forall l :: l in Chain(err) ==> !Matches(l, target)
    decreases ChainMeasure(err)
  {
    if err.None? then None
    else if Matches(err.value, target) then err
    else As(Unwrap(err.value), target)
  }

  /** What `As` finds is the first matching link: no link before it matches. */
  lemma {:induction false} AsFindsFirst(err: Option<Err>, target: Target)
    requires As(err, target).Some?
    ensures exists i :: FirstMatchAt(Chain(err), i, As(err, target).value, target)
    decreases ChainMeasure(err)
  {
    var e := err.value;
    if Matches(e, target) {
      assert FirstMatchAt(Chain(err), 0, e, target);
    } else {
      var u := Unwrap(e);
      AsFindsFirst(u, target);
      assert Chain(err) == [e] + Chain(u);
      var i :| FirstMatchAt(Chain(u), i, As(u, target).value, target);
      assert FirstMatchAt(Chain(err), i + 1, As(err, target).value, target);
    }
  }

  /** `x` sits at position `i` of `c`, and no earlier link matches the target. */
  predicate FirstMatchAt(c: seq<Err>, i: int, x: Err, target: Target)
  {
    0 <= i < |c| && c[i] == x && forall j :: 0 <= j < i ==> !Matches(c[j], target)
  }

  /** A value `errorDto` holds a slice, so it is not comparable; every other link is a pointer. */
  predicate Comparable(e: Err)
  {
    !(e.Dto? && e.ref.ByValue?)
  }

  /** `errors.Is(err, target)`: nil matches only nil; otherwise some link equals a comparable target. */
  predicate Is(err: Option<Err>, target: Option<Err>)
  {
    if err.None? || target.None? then err == target
    else Comparable(target.value) && target.value in Chain(err)
  }

  /** Nil is `Is` only nil, from either side. */
  lemma IsOfNil(err: Option<Err>)
    ensures Is(err, None) <==> err.None?
    ensures Is(None, err) <==> err.None?
  {
  }

  /** Every comparable error is itself. */
  lemma IsReflexive(e: Err)
    requires Comparable(e)
    ensures Is(Some(e), Some(e))
  {
    assert Chain(Some(e))[0] == e;
  }

  /** A value `errorDto` as the target never matches, not even itself. */
  lemma IsNeverValueRecord(err: Option<Err>, v: Err)
    requires v.Dto? && v.ref.ByValue?
    ensures !Is(err, Some(v))
  {
  }

  /** pkg/errors `New(text)`; its stack trace is not modelled. */
  function New(text: string, addr: nat): (r: Err)
    ensures Chain(Some(r)) == [r]
  {
    Native(text, addr)
  }

  /** pkg/errors `Wrap`: nil stays nil; otherwise a link whose text is `msg: cause` and whose cause is `err`. */
  function Wrap(err: Option<Err>, msg: string, addr: nat): (r: Option<Err>)
    ensures r.None? <==> err.None?
    ensures r.Some? ==> ErrorText(r.value) == msg + ": " + ErrorText(err.value)
    ensures r.Some? ==> Unwrap(r.value) == err && Chain(r) == [r.value] + Chain(err)
  {
    if err.None? then None else Some(Wrapped(msg, err.value, addr))
  }

  /**
   * `Error()` of any link; an `errorDto` with a nil native error reports a
   * fixed sentinel instead of failing.
   */
  function ErrorText(e: Err): (r: string)
    ensures e.Dto? && e.d.err.None? ==> r == NIL_ERROR_TEXT
    ensures e.Dto? && e.d.err.Some? ==> r == ErrorText(e.d.err.value)
  {
    match e
    case Native(msg, _) => msg
    case Wrapped(msg, cause, _) => msg + ": " + ErrorText(cause)
    case Dto(d, _) => if d.err.Some? then ErrorText(d.err.value) else NIL_ERROR_TEXT
  }

  /**
   * A record's text depends on its native error only: type, parameters and
   * how it is held do not change it.
   */
  lemma ErrorTextIgnoresClassification(e: Classified, t: ErrType, params: seq<KVParam>, ref: Ref)
    ensures ErrorText(Dto(ErrorDto(e.d.err, t, params), ref)) == ErrorText(e)
  {
  }

  /** Wrapping and then taking the record's text gives the message before the old text. */
  lemma ErrorTextOfWrappedRecord(e: Classified, msg: string, addr: nat, ref: Ref)
    requires e.d.err.Some?
    ensures ErrorText(Dto(ErrorDto(Wrap(e.d.err, msg, addr), e.d.errType, e.d.params), ref))
      == msg + ": " + ErrorText(e)
  {
  }

  // ---------------------------------------------------------------------------
  // ErrType
  // ---------------------------------------------------------------------------

  /** A link classified under `t`. */
  predicate OfType(l: Err, t: ErrType)
  {
    l.Dto? && l.d.errType == t
  }

  /**
   * What `t.IsErrorOfType(err)` decides: nil is of the empty type only, and a
   * non-nil error is of type `t` when some link of its chain is classified under `t`.
   */
  predicate ChainHasType(t: ErrType, err: Option<Err>)
  {
    (err.None? && t.IsEmpty()) || exists l :: l in Chain(err) && OfType(l, t)
  }

  /**
   * `ErrType.IsErrorOfType`: at every link it asks `errors.As` for the first
   * classified error from there on, and compares that one's tag.
   */
  method IsErrorOfType(t: ErrType, err: Option<Err>) returns (b: bool)
    ensures b <==> ChainHasType(t, err)
  {
    if err.None? && t.IsEmpty() {
      return true;
    }
    var cur := err;
    ghost var visited: seq<Err> := [];
    while cur.Some?
      invariant Chain(err) == visited + Chain(cur)
      invariant forall l :: l in visited ==> !OfType(l, t)
      decreases ChainMeasure(cur)
    {
      var tErr := As(cur, AnyClassified);
      if tErr.Some? && tErr.value.d.errType == t {
        InChainOfSuffix(err, visited, cur, tErr.value);
        return true;
      }
      AsAtClassified(cur.value);
      VisitLink(err, visited, cur.value, t);
      visited := visited + [cur.value];
      cur := Unwrap(cur.value);
    }
    assert Chain(err) == visited;
    return false;
  }

  /** A classified link is its own first classified link. */
  lemma AsAtClassified(e: Err)
    ensures e.Dto? ==> As(Some(e), AnyClassified) == Some(e)
  {
  }

  lemma InChainOfSuffix(err: Option<Err>, visited: seq<Err>, cur: Option<Err>, x: Err)
    requires Chain(err) == visited + Chain(cur) && x in Chain(cur)
    ensures x in Chain(err)
  {
  }

  /** Moving past a link not classified under `t` keeps the loop's invariant. */
  lemma VisitLink(err: Option<Err>, visited: seq<Err>, e: Err, t: ErrType)
    requires Chain(err) == visited + Chain(Some(e))
    requires forall l :: l in visited ==> !OfType(l, t)
    requires !OfType(e, t)
    ensures Chain(err) == (visited + [e]) + Chain(Unwrap(e))
    ensures forall l :: l in visited + [e] ==> !OfType(l, t)
  {
    var rest := Chain(Unwrap(e));
    UnwrapStep(e);
    assert visited + ([e] + rest) == (visited + [e]) + rest;
  }

  /** The chain of a link is the link followed by the chain of its cause. */
  lemma UnwrapStep(e: Err)
    ensures Chain(Some(e)) == [e] + Chain(Unwrap(e))
  {
  }

  /** Plain wrap links do not change what an error is classified as. */
  lemma IsErrorOfTypeThroughWrap(t: ErrType, cause: Err, msg: string, addr: nat)
    ensures ChainHasType(t, Some(Wrapped(msg, cause, addr))) <==> ChainHasType(t, Some(cause))
  {
    UnwrapStep(Wrapped(msg, cause, addr));
  }

  /** The chain of a record goes from the record straight to the cause of its native error. */
  lemma UnwrapSkipsInnerError(e: Classified)
    requires e.d.err.Some?
    ensures Chain(Some(e)) == [e] + Chain(Unwrap(e.d.err.value))
  {
    UnwrapStep(e);
  }

  /** Consequently a record's own native error is never a link of the record's chain. */
  lemma InnerRecordIsSkipped(outer: Classified)
    requires outer.d.err.Some?
    ensures outer.d.err.value !in Chain(Some(outer))
  {
    var inner := outer.d.err.value;
    UnwrapStep(outer);
    assert Unwrap(outer) == Unwrap(inner);
    ChainSizeBound(Unwrap(inner));
    assert Size(inner) < Size(outer);
  }

  /** For example, a classified record held directly as another record's native error is not seen. */
  lemma InnerRecordIsSkippedExample()
    ensures var inner := Dto(ErrorDto(Some(Native("x", 0)), ErrType("X"), []), ByPointer(1));
      var outer := Dto(ErrorDto(Some(inner), ErrType(""), []), ByPointer(2));
      ChainHasType(ErrType("X"), Some(inner)) && !ChainHasType(ErrType("X"), Some(outer))
  {
    var inner := Dto(ErrorDto(Some(Native("x", 0)), ErrType("X"), []), ByPointer(1));
    var outer := Dto(ErrorDto(Some(inner), ErrType(""), []), ByPointer(2));
    assert Unwrap(outer) == Unwrap(inner) == None;
    assert Chain(Some(inner)) == [inner];
    assert Chain(Some(outer)) == [outer];
    assert OfType(inner, ErrType("X"));
  }

  // ---------------------------------------------------------------------------
  // Constructors
  // ---------------------------------------------------------------------------

  /** `ErrExtract`: the first classified link of the chain, if any. */
  function ErrExtract(err: Option<Err>): (r: Option<Classified>)
    ensures r.Some? <==> exists l :: l in Chain(err) && l.Dto?
    ensures r.Some? ==> r.value in Chain(err)
    ensures r.Some? ==> exists i :: FirstMatchAt(Chain(err), i, r.value, AnyClassified)
  {
    var tErr := As(err, AnyClassified);
    if tErr.Some? then
      AsFindsFirst(err, AnyClassified);
      Some(tErr.value)
    else
      None
  }

  /**
   * `NewErr`: when the chain holds a `*errorDto`, the first one is re-homed
   * (its fields are copied into a fresh record); otherwise `err` becomes the
   * native error of an unclassified record without parameters.
   */
  function NewErr(err: Option<Err>, addr: nat): (r: Classified)
    ensures r.ref == ByPointer(addr)
  {
    var tErr := As(err, PointerClassified);
    if tErr.Some? then
      Dto(ErrorDto(tErr.value.d.err, tErr.value.d.errType, tErr.value.d.params), ByPointer(addr))
    else
      Dto(ErrorDto(err, ErrType(""), []), ByPointer(addr))
  }

  /** `NewErrFromMsg`: a fresh native error in an unclassified record. */
  function NewErrFromMsg(message: string, nativeAddr: nat, addr: nat): (r: Classified)
    ensures r.ref == ByPointer(addr)
    ensures r.d.err == Some(New(message, nativeAddr))
    ensures r.d.errType.IsEmpty() && r.d.params == []
    ensures ErrorText(r) == message
    ensures Flat(r)
  {
    Dto(ErrorDto(Some(New(message, nativeAddr)), ErrType(""), []), ByPointer(addr))
  }

  /** No link of the chain is a `*errorDto`. */
  predicate NoPointerClassified(err: Option<Err>)
  {
    forall l :: l in Chain(err) ==> !Matches(l, PointerClassified)
  }

  /** The native error of `e` holds no `*errorDto`: what every constructor produces. */
  predicate Flat(e: Classified)
  {
    NoPointerClassified(e.d.err)
  }

  /** Every `*errorDto` of the chain is flat. */
  predicate PointersFlat(err: Option<Err>)
  {
    forall l :: l in Chain(err) && Matches(l, PointerClassified) ==> Flat(l)
  }

  lemma NewErrOfUnclassified(err: Option<Err>, addr: nat)
    requires NoPointerClassified(err)
    ensures NewErr(err, addr).d == ErrorDto(err, ErrType(""), [])
  {
  }

  /** When the chain holds a `*errorDto`, `NewErr` copies the fields of the first one. */
  lemma NewErrRehomesFirst(err: Option<Err>, addr: nat)
    requires !NoPointerClassified(err)
    ensures exists i :: (0 <= i < |Chain(err)| && Matches(Chain(err)[i], PointerClassified)
      && FirstMatchAt(Chain(err), i, Chain(err)[i], PointerClassified)
      && NewErr(err, addr).d == Chain(err)[i].d)
  {
    var found := As(err, PointerClassified);
    AsFindsFirst(err, PointerClassified);
    var i :| FirstMatchAt(Chain(err), i, found.value, PointerClassified);
    assert NewErr(err, addr).d == Chain(err)[i].d;
  }

  /** `NewErr` finds its argument first, so re-homing a classified error is idempotent. */
  lemma NewErrIdempotent(err: Option<Err>, addr1: nat, addr2: nat)
    ensures NewErr(Some(NewErr(err, addr1)), addr2).d == NewErr(err, addr1).d
  {
  }

  /** `NewErr` never nests a `*errorDto` inside the record it builds. */
  lemma NewErrIsFlat(err: Option<Err>, addr: nat)
    requires PointersFlat(err)
    ensures Flat(NewErr(err, addr))
  {
  }

  /** A `*errorDto` whose native error holds none: its whole chain holds only flat ones. */
  lemma {:induction false} FlatHasFlatChain(e: Classified)
    requires Flat(e) && e.ref.ByPointer?
    ensures PointersFlat(Some(e))
  {
    assert Chain(Some(e)) == [e] + Chain(Unwrap(e));
    if e.d.err.Some? {
      UnwrapStep(e.d.err.value);
    }
  }

  // ---------------------------------------------------------------------------
  // Enrichment
  // ---------------------------------------------------------------------------

  /** `WithType`: a fresh record with tag `t`, the same native error and parameters. */
  function WithType(e: Classified, t: ErrType, addr: nat): (r: Classified)
    ensures r.ref == ByPointer(addr)
    ensures r.d.errType == t && r.d.err == e.d.err && r.d.params == e.d.params
  {
    Dto(ErrorDto(e.d.err, t, e.d.params), ByPointer(addr))
  }

  /** The second `WithType` wins over the first. */
  lemma WithTypeLastWins(e: Classified, t1: ErrType, t2: ErrType, addr1: nat, addr2: nat)
    ensures WithType(WithType(e, t1, addr1), t2, addr2) == WithType(e, t2, addr2)
  {
  }

  /**
   * `WithParams`: a fresh record whose parameters are the given ones followed
   * by the receiver's; the loop appends the receiver's parameters one by one.
   */
  method WithParams(e: Classified, params: seq<KVParam>, addr: nat) returns (r: Classified)
    ensures r.ref == ByPointer(addr)
    ensures r.d.params == params + e.d.params
    ensures r.d.err == e.d.err && r.d.errType == e.d.errType
  {
    var acc := params;
    for i := 0 to |e.d.params|
      invariant acc == params + e.d.params[..i]
    {
      acc := acc + [e.d.params[i]];
    }
    assert e.d.params[..|e.d.params|] == e.d.params;
    r := Dto(ErrorDto(e.d.err, e.d.errType, acc), ByPointer(addr));
  }

  /** `WithCtx`: `WithParams` with the context's parameters. */
  method WithCtx(e: Classified, ctx: ContextParams.Context, addr: nat) returns (r: Classified)
    ensures r.ref == ByPointer(addr)
    ensures r.d.params == ContextParams.GetContextParams(ctx) + e.d.params
    ensures r.d.err == e.d.err && r.d.errType == e.d.errType
  {
    r := WithParams(e, ContextParams.GetContextParams(ctx), addr);
  }

  /**
   * `WithMsgWrap`: `NewErr(errors.Wrap(e.err, message)).WithParams(e.Params()...).WithType(e.Type())`.
   * The three records it allocates share `addr`; only the last is observable.
   *
   * For a flat receiver the message wraps the native error and type and
   * parameters carry over. Otherwise `NewErr` re-homes the first `*errorDto`
   * inside the native error: the message is dropped and that record's
   * native error and parameters come along.
   */
  method WithMsgWrap(e: Classified, message: string, wrapAddr: nat, addr: nat) returns (r: Classified)
    ensures r.ref == ByPointer(addr)
    ensures r.d.errType == e.d.errType
    ensures Flat(e) ==> Flat(r)
    ensures Flat(e) ==> r.d.params == e.d.params && r.d.err == Wrap(e.d.err, message, wrapAddr)
    ensures Flat(e) && e.d.err.Some? ==>
      ErrorText(r) == message + ": " + ErrorText(e) && Unwrap(r.d.err.value) == e.d.err
    ensures Flat(e) && e.d.err.None? ==> r.d.err.None? && ErrorText(r) == NIL_ERROR_TEXT
    ensures !Flat(e) ==>
      var inner := As(e.d.err, PointerClassified).value;
      r.d.err == inner.d.err && r.d.params == e.d.params + inner.d.params
  {
    var wrapped := Wrap(e.d.err, message, wrapAddr);
    assert As(wrapped, PointerClassified) == As(e.d.err, PointerClassified) by {
      if e.d.err.Some? {
        assert Unwrap(wrapped.value) == e.d.err;
      }
    }
    var n := NewErr(wrapped, addr);
    var p := WithParams(n, e.d.params, addr);
    r := WithType(p, e.d.errType, addr);
    if Flat(e) {
      assert Chain(wrapped) == if wrapped.Some? then [wrapped.value] + Chain(e.d.err) else [];
    }
  }

  // ---------------------------------------------------------------------------
  // Queries
  // ---------------------------------------------------------------------------

  function Type(e: Classified): ErrType { e.d.errType }

  function Params(e: Classified): seq<KVParam> { e.d.params }

  predicate IsOfType(e: Classified, errType: ErrType) { Type(e) == errType }

  /** After `WithType(t)`, the error is of type `t2` exactly when `t2 == t`. */
  lemma IsOfTypeAfterWithType(e: Classified, t: ErrType, t2: ErrType, addr: nat)
    ensures IsOfType(WithType(e, t, addr), t2) <==> t2 == t
    ensures Params(WithType(e, t, addr)) == Params(e)
  {
  }

  /**
   * `IsExpected`, as written: the classified lookup targets the VALUE type
   * `errorDto`. When it succeeds and the receiver is classified, the tags must
   * agree and the found record's native error must not be of that type;
   * otherwise the receiver's native error is compared with `errors.Is`.
   */
  function IsExpected(e: Classified, inspected: Option<Err>): (r: bool)
    ensures Type(e).IsEmpty() ==> (r <==> Is(e.d.err, inspected))
    ensures inspected.None? ==> (r <==> e.d.err.None?)
    ensures r && !Type(e).IsEmpty() && As(inspected, ValueClassified).Some? ==>
      Type(As(inspected, ValueClassified).value) == Type(e)
    ensures !Type(e).IsEmpty() && As(inspected, ValueClassified).Some? ==>
      var found := As(inspected, ValueClassified).value;
      (r <==> Type(found) == Type(e) && forall l :: l in Chain(found.d.err) ==> !OfType(l, Type(e)))
    ensures As(inspected, ValueClassified).None? ==> (r <==> Is(e.d.err, inspected))
  {
    var tInspected := As(inspected, ValueClassified);
    if tInspected.Some? && !Type(e).IsEmpty() then
      Type(e) == tInspected.value.d.errType && !ChainHasType(Type(e), tInspected.value.d.err)
    else
      Is(e.d.err, inspected)
  }

  /** Without a value `errorDto` in the inspected chain, `IsExpected` is just `errors.Is`. */
  lemma IsExpectedFallsBackToIs(e: Classified, inspected: Option<Err>)
    requires forall l :: l in Chain(inspected) ==> !Matches(l, ValueClassified)
    ensures IsExpected(e, inspected) == Is(e.d.err, inspected)
  {
  }

  /**
   * As written, a `*errorDto` whose chain holds no value `errorDto` (every
   * error the constructors build) is never expected of itself, whatever its tag.
   */
  lemma {:induction false} IsExpectedOfItselfAsWritten(e: Classified)
    requires e.ref.ByPointer?
    requires forall l :: l in Chain(Some(e)) ==> !Matches(l, ValueClassified)
    ensures !IsExpected(e, Some(e))
  {
    if e.d.err.Some? {
      ChainSizeBound(e.d.err);
      assert Size(e.d.err.value) < Size(e);
      assert e !in Chain(e.d.err);
    }
  }

  /**
   * `IsExpected` with the lookup the surrounding code uses for its own
   * records (`*errorDto`, as in `NewErr`).
   */
  function IsExpectedIntended(e: Classified, inspected: Option<Err>): (r: bool)
    ensures Type(e).IsEmpty() ==> (r <==> Is(e.d.err, inspected))
    ensures inspected.None? ==> (r <==> e.d.err.None?)
    ensures r && !Type(e).IsEmpty() && As(inspected, PointerClassified).Some? ==>
      Type(As(inspected, PointerClassified).value) == Type(e)
    ensures !Type(e).IsEmpty() && As(inspected, PointerClassified).Some? ==>
      var found := As(inspected, PointerClassified).value;
      (r <==> Type(found) == Type(e) && forall l :: l in Chain(found.d.err) ==> !OfType(l, Type(e)))
    ensures As(inspected, PointerClassified).None? ==> (r <==> Is(e.d.err, inspected))
  {
    var tInspected := As(inspected, PointerClassified);
    if tInspected.Some? && !Type(e).IsEmpty() then
      Type(e) == tInspected.value.d.errType && !ChainHasType(Type(e), tInspected.value.d.err)
    else
      Is(e.d.err, inspected)
  }

  /**
   * With the intended lookup a classified `*errorDto` whose native error
   * carries no record of its tag is expected of itself.
   */
  lemma IsExpectedOfItselfIntended(e: Classified)
    requires e.ref.ByPointer? && !Type(e).IsEmpty()
    requires !ChainHasType(Type(e), e.d.err)
    ensures IsExpectedIntended(e, Some(e))
  {
    assert Chain(Some(e))[0] == e;
  }

  /**
   * The tags agreeing is not enough: a found record whose native error carries
   * a record of the same tag is not expected.
   */
  lemma IsExpectedRejectsNestedSameType()
    ensures var nested := Dto(ErrorDto(Some(Native("disk full", 1)), ErrType("IO"), []), ByPointer(2));
      var found := Dto(ErrorDto(Some(Wrapped("read", nested, 3)), ErrType("IO"), []), ByValue);
      var e := Dto(ErrorDto(Some(Native("timeout", 4)), ErrType("IO"), []), ByPointer(5));
      Type(found) == Type(e) && !IsExpected(e, Some(found))
  {
    var nested := Dto(ErrorDto(Some(Native("disk full", 1)), ErrType("IO"), []), ByPointer(2));
    var found := Dto(ErrorDto(Some(Wrapped("read", nested, 3)), ErrType("IO"), []), ByValue);
    var e := Dto(ErrorDto(Some(Native("timeout", 4)), ErrType("IO"), []), ByPointer(5));
    assert As(Some(found), ValueClassified) == Some(found);
    assert Chain(found.d.err) == [Wrapped("read", nested, 3)] + Chain(Some(nested));
    assert nested in Chain(found.d.err) && OfType(nested, ErrType("IO"));
  }

  /** A classified error built from a message: as written not expected of itself, as intended it is. */
  lemma IsExpectedSelfCounterexample()
    ensures var e := WithType(NewErrFromMsg("disk full", 1, 2), ErrType("IO"), 3);
      !IsExpected(e, Some(e)) && IsExpectedIntended(e, Some(e))
  {
    var e := WithType(NewErrFromMsg("disk full", 1, 2), ErrType("IO"), 3);
    assert Chain(Some(e)) == [e];
    assert Chain(e.d.err) == [Native("disk full", 1)];
    IsExpectedOfItselfAsWritten(e);
    IsExpectedOfItselfIntended(e);
  }

  /**
   * Creating, classifying, enriching and re-wrapping an error: the message
   * gains the wrap text while type and parameters carry over.
   */
  method SaveFailedScenario() returns (e2: Classified)
    ensures ErrorText(e2) == "save failed: disk full"
    ensures Type(e2) == ErrType("IO") && Params(e2) == [KVInt("retries", 3)]
  {
    var e0 := NewErrFromMsg("disk full", 1, 2);
    var typed := WithType(e0, ErrType("IO"), 3);
    var e1 := WithParams(typed, [KVInt("retries", 3)], 4);
    e2 := WithMsgWrap(e1, "save failed", 5, 6);
  }
}
