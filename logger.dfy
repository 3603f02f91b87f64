/**
 * The logger (logger.go): configuration strings, the merge of parameter
 * sources in a fixed precedence order, first-wins deduplication by key and
 * the conversion of parameters into zap fields. The zap sink is left out:
 * each log method returns the entry it would hand to zap.
 */
module Logger {
  import opened Optional
  import opened KV
  import ContextParams
  import Errors

  // ---------------------------------------------------------------------------
  // Configuration
  // ---------------------------------------------------------------------------

  /** The zapcore levels the logger uses. */
  datatype Level = DebugLevel | InfoLevel | WarnLevel | ErrorLevel

  /** The configuration name of each level. */
  function LevelName(level: Level): string
  {
    match level
    case DebugLevel => "debug"
    case InfoLevel => "info"
    case WarnLevel => "warning"
    case ErrorLevel => "error"
  }

  /** `logLevel.toZapLevel`: the four level names are accepted, anything else is an error. */
  function ToZapLevel(l: string): (r: Result<Level>)
    ensures r.Ok? <==> l == "debug" || l == "info" || l == "warning" || l == "error"
    ensures r.Ok? ==> LevelName(r.value) == l
    ensures r.Failure? ==> r.error == "unknown log level: " + l
  {
    if l == "debug" then Ok(DebugLevel)
    else if l == "error" then Ok(ErrorLevel)
    else if l == "info" then Ok(InfoLevel)
    else if l == "warning" then Ok(WarnLevel)
    else Failure("unknown log level: " + l)
  }

  /** Every level is reached from its own name. */
  lemma ToZapLevelOfName(level: Level)
    ensures ToZapLevel(LevelName(level)) == Ok(level)
  {
  }

  /** `logEncoding.toZapEncoding`: "text" is zap's console encoder, "json" its JSON encoder. */
  function ToZapEncoding(t: string): (r: Result<string>)
    ensures r.Ok? <==> t == "text" || t == "json"
    ensures t == "text" ==> r == Ok("console")
    ensures t == "json" ==> r == Ok("json")
    ensures r.Failure? ==> r.error == "unknown log encoding: " + t
  {
    if t == "text" then Ok("console")
    else if t == "json" then Ok("json")
    else Failure("unknown log encoding: " + t)
  }

  /** Distinct accepted encodings name distinct zap encoders. */
  lemma ToZapEncodingInjective(a: string, b: string)
    requires ToZapEncoding(a).Ok? && ToZapEncoding(b).Ok?
    requires ToZapEncoding(a).value == ToZapEncoding(b).value
    ensures a == b
  {
  }

  // ---------------------------------------------------------------------------
  // Fields
  // ---------------------------------------------------------------------------

  /**
   * Which zap field constructor built a field. zap's `Any(key, "")` yields the
   * same field as `String(key, "")`; `AnyField` records only that the
   * fallback branch was taken.
   */
  datatype FieldKind = StringField | IntField | Float64Field | BoolField | TimeField | DurationField | AnyField

  datatype Payload =
    | Text(s: string)
    | Integer(i: int64)
    | Real(f: Float64)
    | Flag(b: bool)
    | Instant(t: Timestamp)
    | Span(d: TimeSpan)

  /** A zap field: the constructor used, the key and the value. */
  datatype Field = Field(kind: FieldKind, key: string, payload: Payload)

  predicate KnownKind(t: KVParamType)
  {
    KV_PARAM_TYPE_STRING <= t <= KV_PARAM_TYPE_DURATION
  }

  /**
   * `convertToZapField`: the field constructor of the parameter's kind, fed by
   * the matching accessor; an unknown kind becomes the placeholder `Any(key, "")`.
   */
  function ConvertToZapField(param: KVParam): (f: Field)
    ensures f.key == param.Key()
    ensures f.kind == AnyField <==> !KnownKind(param.Type())
    ensures f.kind == AnyField ==> f.payload == Text("")
  {
    var t := param.Type();
    if t == KV_PARAM_TYPE_STRING then Field(StringField, param.Key(), Text(param.String()))
    else if t == KV_PARAM_TYPE_INT then Field(IntField, param.Key(), Integer(param.Int()))
    else if t == KV_PARAM_TYPE_FLOAT then Field(Float64Field, param.Key(), Real(param.Float()))
    else if t == KV_PARAM_TYPE_BOOLEAN then Field(BoolField, param.Key(), Flag(param.Bool()))
    else if t == KV_PARAM_TYPE_TIME then Field(TimeField, param.Key(), Instant(param.Time()))
    else if t == KV_PARAM_TYPE_DURATION then Field(DurationField, param.Key(), Span(param.Duration()))
    else Field(AnyField, param.Key(), Text(""))
  }

  /** A parameter built by a factory renders as the field of its kind carrying the original value. */
  lemma FieldOfFactory(key: string, s: string, i: int64, f: Float64, b: bool, t: Timestamp, d: TimeSpan)
    ensures ConvertToZapField(KVString(key, s)) == Field(StringField, key, Text(s))
    ensures ConvertToZapField(KVInt(key, i)) == Field(IntField, key, Integer(i))
    ensures ConvertToZapField(KVFloat64(key, f)) == Field(Float64Field, key, Real(f))
    ensures ConvertToZapField(KVBool(key, b)) == Field(BoolField, key, Flag(b))
    ensures ConvertToZapField(KVTime(key, t)) == Field(TimeField, key, Instant(t))
    ensures ConvertToZapField(KVDuration(key, d)) == Field(DurationField, key, Span(d))
  {
  }

  /** The fields of a parameter list, one per parameter, in order. */
  function ZapFields(s: seq<KVParam>): seq<Field>
  {
    seq(|s|, i requires 0 <= i < |s| => ConvertToZapField(s[i]))
  }

  // ---------------------------------------------------------------------------
  // Deduplication by key
  // ---------------------------------------------------------------------------

  function KeysOf(s: seq<KVParam>): set<string>
  {
    set i | 0 <= i < |s| :: s[i].Key()
  }

  lemma KeysOfSnoc(s: seq<KVParam>, p: KVParam)
    ensures KeysOf(s + [p]) == KeysOf(s) + {p.Key()}
  {
    var t := s + [p];
    forall k | k in KeysOf(s) ensures k in KeysOf(t) {
      var i :| 0 <= i < |s| && s[i].Key() == k;
      assert t[i].Key() == k;
    }
    assert t[|s|].Key() == p.Key();
  }

  lemma KeyInTail(s: seq<KVParam>, k: string)
    requires k in KeysOf(s) && s[0].Key() != k
    ensures k in KeysOf(s[1..])
  {
    var i :| 0 <= i < |s| && s[i].Key() == k;
    assert s[1..][i - 1].Key() == k;
  }

  /** The first parameter of `s` whose key is `k`. */
  function FirstWithKey(s: seq<KVParam>, k: string): (p: KVParam)
    requires k in KeysOf(s)
    ensures p in s && p.Key() == k
    decreases |s|
  {
    if s[0].Key() == k then s[0]
    else
      KeyInTail(s, k);
      FirstWithKey(s[1..], k)
  }

  /** The first `k` of `a + b` is the first of `a` when `a` has one, else the first of `b`. */
  lemma {:induction false} FirstWithKeyConcat(a: seq<KVParam>, b: seq<KVParam>, k: string)
    requires k in KeysOf(a + b)
    ensures k in KeysOf(a) || k in KeysOf(b)
    ensures FirstWithKey(a + b, k) == if k in KeysOf(a) then FirstWithKey(a, k) else FirstWithKey(b, k)
    decreases |a|
  {
    if a == [] {
      assert a + b == b;
    } else {
      assert (a + b)[0] == a[0];
      if a[0].Key() != k {
        assert (a + b)[1..] == a[1..] + b;
        KeyInTail(a + b, k);
        FirstWithKeyConcat(a[1..], b, k);
        if k in KeysOf(a) {
          KeyInTail(a, k);
        }
      }
    }
  }

  /**
   * The reference definition of `convertToZapFields`' deduplication: a
   * parameter is kept when no earlier parameter has its key.
   */
  function Deduplicated(s: seq<KVParam>): seq<KVParam>
    decreases |s|
  {
    if s == [] then []
    else
      var n := |s| - 1;
      if s[n].Key() in KeysOf(s[..n]) then Deduplicated(s[..n]) else Deduplicated(s[..n]) + [s[n]]
  }

  /** The positions of `s` holding the first parameter with their key, in increasing order. */
  function FirstIndices(s: seq<KVParam>): seq<nat>
    decreases |s|
  {
    if s == [] then []
    else
      var n := |s| - 1;
      if s[n].Key() in KeysOf(s[..n]) then FirstIndices(s[..n]) else FirstIndices(s[..n]) + [n]
  }

  /** Deduplication keeps every key once: the key set is unchanged and the keys are pairwise distinct. */
  lemma {:induction false} DeduplicatedKeys(s: seq<KVParam>)
    ensures KeysOf(Deduplicated(s)) == KeysOf(s)
    ensures forall i, j :: 0 <= i < j < |Deduplicated(s)| ==> Deduplicated(s)[i].Key() != Deduplicated(s)[j].Key()
    decreases |s|
  {
    if s != [] {
      var n := |s| - 1;
      var pre := s[..n];
      assert s == pre + [s[n]];
      DeduplicatedKeys(pre);
      KeysOfSnoc(pre, s[n]);
      KeysOfSnoc(Deduplicated(pre), s[n]);
      if s[n].Key() !in KeysOf(pre) {
        var r := Deduplicated(pre);
        forall i | 0 <= i < |r| ensures r[i].Key() != s[n].Key() {
          assert r[i].Key() in KeysOf(r);
        }
      }
    }
  }

  /** Every parameter deduplication keeps is the first in `s` with its key. */
  lemma {:induction false} DeduplicatedFirstWins(s: seq<KVParam>)
    ensures forall j :: 0 <= j < |Deduplicated(s)| ==>
      Deduplicated(s)[j].Key() in KeysOf(s) && Deduplicated(s)[j] == FirstWithKey(s, Deduplicated(s)[j].Key())
    decreases |s|
  {
    if s != [] {
      var n := |s| - 1;
      var pre := s[..n];
      assert s == pre + [s[n]];
      DeduplicatedFirstWins(pre);
      KeysOfSnoc(pre, s[n]);
      var r := Deduplicated(s);
      var rp := Deduplicated(pre);
      forall j | 0 <= j < |r|
        ensures r[j].Key() in KeysOf(s) && r[j] == FirstWithKey(s, r[j].Key())
      {
        if j < |rp| {
          assert r[j] == rp[j];
          FirstWithKeyConcat(pre, [s[n]], r[j].Key());
        } else {
          assert r[j] == s[n] && s[n].Key() !in KeysOf(pre);
          FirstWithKeyConcat(pre, [s[n]], r[j].Key());
          assert [s[n]][0] == s[n];
        }
      }
    }
  }

  /**
   * Deduplication keeps the first occurrences in their original order: it is
   * the subsequence of `s` at the strictly increasing positions `FirstIndices(s)`.
   */
  lemma {:induction false} DeduplicatedKeepsOrder(s: seq<KVParam>)
    ensures |FirstIndices(s)| == |Deduplicated(s)|
    ensures forall m :: 0 <= m < |FirstIndices(s)| ==>
      FirstIndices(s)[m] < |s| && Deduplicated(s)[m] == s[FirstIndices(s)[m]]
    ensures forall m, m' :: 0 <= m < m' < |FirstIndices(s)| ==> FirstIndices(s)[m] < FirstIndices(s)[m']
    decreases |s|
  {
    if s != [] {
      var n := |s| - 1;
      var pre := s[..n];
      DeduplicatedKeepsOrder(pre);
      var ixp := FirstIndices(pre);
      var rp := Deduplicated(pre);
      assert forall m :: 0 <= m < |ixp| ==> ixp[m] < n && s[ixp[m]] == pre[ixp[m]];
      if s[n].Key() !in KeysOf(pre) {
        assert FirstIndices(s) == ixp + [n] && Deduplicated(s) == rp + [s[n]];
      }
    }
  }

  /** The positions `FirstIndices(s)` are exactly those whose key no earlier parameter has. */
  lemma {:induction false} FirstIndicesAreFirstOccurrences(s: seq<KVParam>)
    ensures forall i :: 0 <= i < |s| ==> (i in FirstIndices(s) <==> s[i].Key() !in KeysOf(s[..i]))
    decreases |s|
  {
    if s != [] {
      var n := |s| - 1;
      var pre := s[..n];
      FirstIndicesAreFirstOccurrences(pre);
      DeduplicatedKeepsOrder(pre);
      var ixp := FirstIndices(pre);
      assert forall m :: 0 <= m < |ixp| ==> ixp[m] < n;
      assert n !in ixp;
      forall i | 0 <= i < |s|
        ensures i in FirstIndices(s) <==> s[i].Key() !in KeysOf(s[..i])
      {
        if i < n {
          assert s[..i] == pre[..i] && s[i] == pre[i];
          assert i in FirstIndices(s) <==> i in ixp;
        } else {
          assert s[..i] == pre;
        }
      }
    }
  }

  /**
   * Rendering `s` yields exactly one field for each of its keys, the field of
   * the first parameter with that key.
   */
  lemma FieldForKey(s: seq<KVParam>, k: string)
    requires k in KeysOf(s)
    ensures var fields := ZapFields(Deduplicated(s));
      (exists j :: 0 <= j < |fields| && fields[j].key == k) &&
      forall j :: 0 <= j < |fields| && fields[j].key == k ==> fields[j] == ConvertToZapField(FirstWithKey(s, k))
  {
    var r := Deduplicated(s);
    DeduplicatedKeys(s);
    DeduplicatedFirstWins(s);
    var j :| 0 <= j < |r| && r[j].Key() == k;
    assert ZapFields(r)[j].key == k;
  }

  /**
   * `convertToZapFields`: walks the parameters, remembering the keys seen in
   * a set, and converts each parameter whose key is new.
   */
  method ConvertToZapFields(params: seq<KVParam>) returns (zapFields: seq<Field>)
    ensures zapFields == ZapFields(Deduplicated(params))
    ensures forall i, j :: 0 <= i < j < |zapFields| ==> zapFields[i].key != zapFields[j].key
  {
    zapFields := [];
    var uniqueParams: set<string> := {};
    for i := 0 to |params|
      invariant uniqueParams == KeysOf(params[..i])
      invariant zapFields == ZapFields(Deduplicated(params[..i]))
    {
      var param := params[i];
      assert params[..i + 1] == params[..i] + [param];
      assert params[..i + 1][..i] == params[..i];
      KeysOfSnoc(params[..i], param);
      if param.Key() in uniqueParams {
        continue;
      }
      uniqueParams := uniqueParams + {param.Key()};
      zapFields := zapFields + [ConvertToZapField(param)];
    }
    assert params[..|params|] == params;
    DeduplicatedKeys(params);
  }

  // ---------------------------------------------------------------------------
  // Merging
  // ---------------------------------------------------------------------------

  /** The concatenation of the lists, in argument order. */
  function Flatten(lists: seq<seq<KVParam>>): seq<KVParam>
    decreases |lists|
  {
    if lists == [] then [] else Flatten(lists[..|lists| - 1]) + lists[|lists| - 1]
  }

  function TotalLength(lists: seq<seq<KVParam>>): nat
    decreases |lists|
  {
    if lists == [] then 0 else TotalLength(lists[..|lists| - 1]) + |lists[|lists| - 1]|
  }

  /**
   * `mergeParams`: a first loop sums the lengths for the capacity, a second
   * appends every list in order.
   */
  method MergeParams(paramsList: seq<seq<KVParam>>) returns (newParams: seq<KVParam>)
    ensures newParams == Flatten(paramsList)
    ensures |newParams| == TotalLength(paramsList)
  {
    var capacity := 0;
    for i := 0 to |paramsList|
      invariant capacity == TotalLength(paramsList[..i])
    {
      assert paramsList[..i + 1][..i] == paramsList[..i];
      capacity := capacity + |paramsList[i]|;
    }
    newParams := [];
    for i := 0 to |paramsList|
      invariant newParams == Flatten(paramsList[..i])
      invariant |newParams| == TotalLength(paramsList[..i])
    {
      assert paramsList[..i + 1][..i] == paramsList[..i];
      newParams := newParams + paramsList[i];
    }
    assert paramsList[..|paramsList|] == paramsList;
    assert |newParams| == capacity;
  }

  lemma FlattenTwo(a: seq<KVParam>, b: seq<KVParam>)
    ensures Flatten([a, b]) == a + b
  {
    assert [a, b][..1] == [a];
    assert [a][..0] == [];
    assert Flatten([a]) == [] + a == a;
  }

  lemma FlattenFour(a: seq<KVParam>, b: seq<KVParam>, c: seq<KVParam>, d: seq<KVParam>)
    ensures Flatten([a, b, c, d]) == a + b + c + d
  {
    assert [a, b, c, d][..3] == [a, b, c];
    assert [a, b, c][..2] == [a, b];
    FlattenTwo(a, b);
  }

  // ---------------------------------------------------------------------------
  // Log methods
  // ---------------------------------------------------------------------------

  const ERR_TYPE_KEY := "err_type"

  /** What a log call hands to zap. */
  datatype Entry = Entry(level: Level, message: string, fields: seq<Field>)

  /**
   * The candidate parameters of `Error` and `Warn`, in precedence order: the
   * explicit ones, then for a classified error its own parameters, the
   * context's, and a synthetic `err_type`; for any other error the explicit
   * ones and the context's.
   */
  function FailureParams(ctx: ContextParams.Context, err: Errors.Err, params: seq<KVParam>): seq<KVParam>
  {
    var tErr := Errors.ErrExtract(Some(err));
    if tErr.Some? then
      params + Errors.Params(tErr.value) + ContextParams.GetContextParams(ctx)
      + [KVString(ERR_TYPE_KEY, Errors.Type(tErr.value).String())]
    else
      params + ContextParams.GetContextParams(ctx)
  }

  /** The body shared by `Error` and `Warn`. */
  method LogFailure(level: Level, ctx: ContextParams.Context, err: Errors.Err, params: seq<KVParam>)
    returns (entry: Entry)
    ensures entry == Entry(level, Errors.ErrorText(err), ZapFields(Deduplicated(FailureParams(ctx, err, params))))
  {
    var tErr := Errors.ErrExtract(Some(err));
    var merged;
    if tErr.Some? {
      var errTypeParam := [KVString(ERR_TYPE_KEY, Errors.Type(tErr.value).String())];
      merged := MergeParams([params, Errors.Params(tErr.value), ContextParams.GetContextParams(ctx), errTypeParam]);
      FlattenFour(params, Errors.Params(tErr.value), ContextParams.GetContextParams(ctx), errTypeParam);
    } else {
      merged := MergeParams([params, ContextParams.GetContextParams(ctx)]);
      FlattenTwo(params, ContextParams.GetContextParams(ctx));
    }
    var fields := ConvertToZapFields(merged);
    entry := Entry(level, Errors.ErrorText(err), fields);
  }

  /** `Error`: the error's own text at error level; `err` is not nil. */
  method Error(ctx: ContextParams.Context, err: Errors.Err, params: seq<KVParam>) returns (entry: Entry)
    ensures entry.level == ErrorLevel && entry.message == Errors.ErrorText(err)
    ensures entry.fields == ZapFields(Deduplicated(FailureParams(ctx, err, params)))
  {
    entry := LogFailure(ErrorLevel, ctx, err, params);
  }

  /** `Warn`: as `Error`, at warning level. */
  method Warn(ctx: ContextParams.Context, err: Errors.Err, params: seq<KVParam>) returns (entry: Entry)
    ensures entry.level == WarnLevel && entry.message == Errors.ErrorText(err)
    ensures entry.fields == ZapFields(Deduplicated(FailureParams(ctx, err, params)))
  {
    entry := LogFailure(WarnLevel, ctx, err, params);
  }

  /** The body shared by `Info` and `Debug`. */
  method LogMessage(level: Level, ctx: ContextParams.Context, msg: string, params: seq<KVParam>)
    returns (entry: Entry)
    ensures entry == Entry(level, msg, ZapFields(Deduplicated(params + ContextParams.GetContextParams(ctx))))
  {
    var merged := MergeParams([params, ContextParams.GetContextParams(ctx)]);
    FlattenTwo(params, ContextParams.GetContextParams(ctx));
    var fields := ConvertToZapFields(merged);
    entry := Entry(level, msg, fields);
  }

  /** `Info`: the message with the explicit parameters, then the context's. */
  method Info(ctx: ContextParams.Context, msg: string, params: seq<KVParam>) returns (entry: Entry)
    ensures entry.level == InfoLevel && entry.message == msg
    ensures entry.fields == ZapFields(Deduplicated(params + ContextParams.GetContextParams(ctx)))
  {
    entry := LogMessage(InfoLevel, ctx, msg, params);
  }

  /** `Debug`: as `Info`, at debug level. */
  method Debug(ctx: ContextParams.Context, msg: string, params: seq<KVParam>) returns (entry: Entry)
    ensures entry.level == DebugLevel && entry.message == msg
    ensures entry.fields == ZapFields(Deduplicated(params + ContextParams.GetContextParams(ctx)))
  {
    entry := LogMessage(DebugLevel, ctx, msg, params);
  }

  /** `CtxWithParams`: `CtxWithValue`. */
  function CtxWithParams(ctx: ContextParams.Context, params: seq<KVParam>): (r: ContextParams.Context)
    ensures ContextParams.GetContextParams(r) == ContextParams.GetContextParams(ctx) + params
  {
    ContextParams.CtxWithValue(ctx, params)
  }

  // ---------------------------------------------------------------------------
  // Precedence
  // ---------------------------------------------------------------------------

  /** An explicit parameter overrides error and context parameters with the same key. */
  lemma ExplicitParamWins(ctx: ContextParams.Context, err: Errors.Err, params: seq<KVParam>, k: string)
    requires k in KeysOf(params)
    ensures var fields := ZapFields(Deduplicated(FailureParams(ctx, err, params)));
      (exists j :: 0 <= j < |fields| && fields[j].key == k) &&
      forall j :: 0 <= j < |fields| && fields[j].key == k ==> fields[j] == ConvertToZapField(FirstWithKey(params, k))
  {
    var s := FailureParams(ctx, err, params);
    var rest := s[|params|..];
    assert s == params + rest;
    KeysOfConcat(params, rest);
    FirstWithKeyConcat(params, rest, k);
    FieldForKey(s, k);
  }

  /**
   * Without an explicit parameter of key `k`, a classified error's own
   * parameter of that key overrides the context's.
   */
  lemma ErrorParamBeatsContext(ctx: ContextParams.Context, err: Errors.Err, params: seq<KVParam>, k: string)
    requires Errors.ErrExtract(Some(err)).Some?
    requires k !in KeysOf(params) && k in KeysOf(Errors.Params(Errors.ErrExtract(Some(err)).value))
    ensures var fields := ZapFields(Deduplicated(FailureParams(ctx, err, params)));
      (exists j :: 0 <= j < |fields| && fields[j].key == k) &&
      forall j :: 0 <= j < |fields| && fields[j].key == k ==>
        fields[j] == ConvertToZapField(FirstWithKey(Errors.Params(Errors.ErrExtract(Some(err)).value), k))
  {
    var tErr := Errors.ErrExtract(Some(err)).value;
    var ep := Errors.Params(tErr);
    var later := ContextParams.GetContextParams(ctx) + [KVString(ERR_TYPE_KEY, Errors.Type(tErr).String())];
    var s := FailureParams(ctx, err, params);
    assert s == params + ep + later;
    FirstWithKeyInMiddle(params, ep, later, k);
    FieldForKey(s, k);
  }

  lemma FirstWithKeyInMiddle(a: seq<KVParam>, b: seq<KVParam>, c: seq<KVParam>, k: string)
    requires k !in KeysOf(a) && k in KeysOf(b)
    ensures k in KeysOf(a + b + c) && FirstWithKey(a + b + c, k) == FirstWithKey(b, k)
  {
    KeysOfConcat(a, b);
    KeysOfConcat(a + b, c);
    FirstWithKeyConcat(a + b, c, k);
    FirstWithKeyConcat(a, b, k);
  }

  /**
   * A classified error always renders an `err_type` field: its tag when no
   * earlier parameter uses that key, and otherwise the first such parameter.
   */
  lemma ErrTypeField(ctx: ContextParams.Context, err: Errors.Err, params: seq<KVParam>)
    requires Errors.ErrExtract(Some(err)).Some?
    ensures var tErr := Errors.ErrExtract(Some(err)).value;
      var earlier := params + Errors.Params(tErr) + ContextParams.GetContextParams(ctx);
      var fields := ZapFields(Deduplicated(FailureParams(ctx, err, params)));
      (exists j :: 0 <= j < |fields| && fields[j].key == ERR_TYPE_KEY) &&
      forall j :: 0 <= j < |fields| && fields[j].key == ERR_TYPE_KEY ==>
        fields[j] == if ERR_TYPE_KEY in KeysOf(earlier) then ConvertToZapField(FirstWithKey(earlier, ERR_TYPE_KEY))
                     else Field(StringField, ERR_TYPE_KEY, Text(Errors.Type(tErr).String()))
  {
    var tErr := Errors.ErrExtract(Some(err)).value;
    var earlier := params + Errors.Params(tErr) + ContextParams.GetContextParams(ctx);
    var synthetic := KVString(ERR_TYPE_KEY, Errors.Type(tErr).String());
    var s := FailureParams(ctx, err, params);
    assert s == earlier + [synthetic];
    KeysOfSnoc(earlier, synthetic);
    FirstWithKeyConcat(earlier, [synthetic], ERR_TYPE_KEY);
    assert [synthetic][0] == synthetic;
    FieldForKey(s, ERR_TYPE_KEY);
  }

  lemma KeysOfConcat(a: seq<KVParam>, b: seq<KVParam>)
    ensures KeysOf(a + b) == KeysOf(a) + KeysOf(b)
  {
    var t := a + b;
    forall k | k in KeysOf(t) ensures k in KeysOf(a) + KeysOf(b) {
      var i :| 0 <= i < |t| && t[i].Key() == k;
      if i >= |a| {
        assert b[i - |a|].Key() == k;
      }
    }
    forall k | k in KeysOf(a) + KeysOf(b) ensures k in KeysOf(t) {
      if k in KeysOf(a) {
        var i :| 0 <= i < |a| && a[i].Key() == k;
        assert t[i].Key() == k;
      } else {
        var i :| 0 <= i < |b| && b[i].Key() == k;
        assert t[|a| + i].Key() == k;
      }
    }
  }
}
