# lgr: a verified model of a structured logger with classified errors

lgr wraps the zap logger. Callers attach typed key-value parameters to log
calls, to a request context and to errors. Errors carry a type tag
(`ErrType`) and their own parameters, and they form chains walked with Go's
`errors.Unwrap`, `errors.As` and `errors.Is`. A log call gathers parameters
from the call, the error and the context in a fixed precedence order. It drops
every later parameter whose key was already seen, converts the rest to zap
fields and hands the message and fields to zap.

The model has five modules:

- `Optional` (`optional.dfy`): `Option` and `Result`.
- `KV` (`kv.dfy`): `KVParam`, its six factories and its accessors. Go's `int`
  and `int64` are the bounded `int64` newtype; a `float64` is kept as its
  IEEE-754 bits.
- `ContextParams` (`context_params.dfy`): a context is a map from keys to
  values, and the logger's parameter list sits under `"log_params"`.
- `Errors` (`errors.dfy`): native errors, pkg/errors wrap links, and
  `errorDto` records held by pointer or by value. The module defines the chain
  that `errors.Unwrap` visits, `errors.As` for the three target types used in
  error.go, and `errors.Is`. It also models the constructors, the enrichment
  methods and the queries of `Error`. Every heap allocation carries an address
  passed in as a parameter, so Go's pointer identity becomes Dafny equality.
- `Logger` (`logger.dfy`): the level and encoding parsers, field conversion,
  deduplication by key, merging, and the four log methods. Each log method
  returns the `Entry` (level, message, fields) it would give to zap.

Source loops are methods with loop invariants, proved against specification
functions: `IsErrorOfType` against `ChainHasType`, `WithParams` against
concatenation, `MergeParams` against `Flatten`, and `ConvertToZapFields`
against `ZapFields(Deduplicated(..))`. Lemmas then prove what the logger
promises about those functions.

## Model

| member | source | states |
|---|---|---|
| KV.KVString | kv.go:59-61 | the key, the string tag, the value read back by `String()`, and zero in the slots it does not use |
| KV.KVInt | kv.go:67-69 | the key, the int tag, the value read back by `Int()`, `Bool()` true exactly when the value is non-zero, and the other slots zero |
| KV.KVFloat64 | kv.go:71-73 | the key, the float tag, the value read back by `Float()`, and the other slots zero |
| KV.KVBool | kv.go:75-82 | the key, the boolean tag, `Bool()` returns the value, and the int slot is 1 for true and 0 for false |
| KV.KVTime | kv.go:84-86 | the key, the time tag, the Unix-nanosecond count in the int slot, and `Time()` returns the original instant |
| KV.KVDuration | kv.go:88-90 | the key, the duration tag, the nanosecond count in the int slot, and `Duration()` returns the original span |
| KV.MismatchedAccessors | kv.go:27-57 | reading through another kind's accessor returns the zero value of an untouched slot, or a value derived from the int slot; it never fails |
| ContextParams.GetContextParams | context.go:11-18 | a missing entry, or an entry of another type, reads as the empty list; otherwise the stored list is returned |
| ContextParams.CtxWithValue | context.go:5-9 | the new context's list is the old list followed by the new parameters; every other key keeps its value |
| ContextParams.NestedAttachments | context.go:5-9 | two nested attachments read back in insertion order, with duplicates kept |
| ContextParams.AttachNothing | context.go:5-9 | attaching no parameters leaves the readable list unchanged |
| Errors.Unwrap | error.go:108-110 | every unwrap step reaches a strictly smaller error, so every chain is finite |
| Errors.Chain | error.go:108-110 | the chain is empty exactly for nil, and otherwise starts with the error itself |
| Errors.ChainSizeBound | error.go:108-110 | no link of a chain is larger than the error the chain starts from |
| Errors.UnwrapSkipsInnerError | error.go:108-110 | after a record, the chain continues with the cause of the record's native error, not with that native error |
| Errors.InnerRecordIsSkipped | error.go:108-110 | a record's own native error is never a link of the record's chain |
| Errors.InnerRecordIsSkippedExample | error.go:20-34 | an example: a typed record held directly as another record's native error is not seen by `IsErrorOfType` |
| Errors.As | error.go:48-56 | a found link matches the target type and lies on the chain; nothing is found exactly when no link of the chain matches |
| Errors.AsFindsFirst | error.go:58-65 | no link before the found one matches the target type |
| Errors.IsOfNil | error.go:121 | `errors.Is` matches nil only with nil, on either side |
| Errors.IsReflexive | error.go:121 | every comparable error is `errors.Is` itself |
| Errors.IsNeverValueRecord | error.go:121 | a value `errorDto` target is not comparable, so `errors.Is` never matches it |
| Errors.New | error.go:67-69 | a native error's chain is the error alone |
| Errors.Wrap | error.go:93-95 | wrapping nil gives nil; otherwise the text is `msg: cause`, the wrap link unwraps to the cause, and its chain is the link followed by the cause's chain |
| Errors.ErrorText | error.go:101-106 | a record with a nil native error reports the fixed sentinel text; otherwise it reports its native error's text |
| Errors.ErrorTextIgnoresClassification | error.go:101-106 | a record's text depends only on its native error, not on its type, its parameters or how it is held |
| Errors.ErrorTextOfWrappedRecord | error.go:93-106 | a record whose native error was wrapped with a message reports that message, ": " and the record's old text |
| Errors.IsErrorOfType | error.go:20-34 | true exactly when the error is nil and the type empty, or some link of its chain is a record with this type |
| Errors.IsErrorOfTypeThroughWrap | error.go:20-34 | a plain wrap link does not change whether an error is of a type |
| Errors.ErrExtract | error.go:48-56 | a record is returned exactly when the chain holds one; the returned record is the first record on the chain |
| Errors.NewErr | error.go:58-65 | the result is a fresh pointer record |
| Errors.NewErrOfUnclassified | error.go:58-65 | with no `*errorDto` on the chain, the result is an unclassified record without parameters around the given error |
| Errors.NewErrRehomesFirst | error.go:58-65 | with a `*errorDto` on the chain, the result copies the native error, type and parameters of the first one |
| Errors.NewErrIdempotent | error.go:58-65 | re-homing an error `NewErr` built gives the same fields again |
| Errors.NewErrIsFlat | error.go:58-65 | when every `*errorDto` on the chain is flat, the record `NewErr` builds is flat too |
| Errors.FlatHasFlatChain | error.go:58-65 | a flat `*errorDto` has only flat `*errorDto`s on its chain |
| Errors.NewErrFromMsg | error.go:67-69 | an unclassified record without parameters around a fresh native error; its text is the message and it is flat |
| Errors.WithType | error.go:89-91 | a fresh record with the new type, the same native error and the same parameters |
| Errors.WithTypeLastWins | error.go:89-91 | of two `WithType` calls the second one wins |
| Errors.IsOfTypeAfterWithType | error.go:89-91 | after `WithType(t)`, `IsOfType(t2)` holds exactly when `t2 == t`, and the parameters are unchanged |
| Errors.WithParams | error.go:81-87 | a fresh record whose parameters are the given ones followed by the receiver's, with native error and type unchanged |
| Errors.WithCtx | error.go:77-79 | the context's parameters come first, then the receiver's; native error and type are unchanged |
| Errors.WithMsgWrap | error.go:93-95 | the type is kept. For a flat receiver the parameters are kept, the text becomes `message: old text`, the result unwraps to the old native error, and a nil native error stays nil. Otherwise the first inner `*errorDto` is re-homed and its parameters follow the receiver's |
| Errors.SaveFailedScenario | error.go:67-95 | creating, typing, enriching and wrapping "disk full" gives "save failed: disk full", type IO and the retries parameter |
| Errors.IsExpected | error.go:112-122 | as written, with the lookup for a value `errorDto`. A typed receiver with a record found on the inspected chain is expected exactly when the found record has the receiver's type and no link of the found record's native error chain carries that type. When no record is found, or the receiver is untyped, the answer is `errors.Is` on the receiver's native error. A nil inspected error is expected exactly when the native error is nil |
| Errors.IsExpectedIntended | error.go:112-122 | the same formula, with the lookup for a `*errorDto` |
| Errors.IsExpectedRejectsNestedSameType | error.go:115-119 | an example: the inspected record has the receiver's type, but its native error wraps a record of that type too, so it is not expected |
| Errors.IsExpectedFallsBackToIs | error.go:112-122 | with no value `errorDto` on the inspected chain, `IsExpected` is `errors.Is` on the receiver's native error |
| Errors.IsExpectedOfItselfAsWritten | error.go:112-122 | as written, a pointer record whose chain holds no value `errorDto` is never expected of itself |
| Errors.IsExpectedOfItselfIntended | error.go:112-122 | with a `*errorDto` lookup, a classified record whose native error carries no record of its type is expected of itself |
| Errors.IsExpectedSelfCounterexample | error.go:112-122 | a concrete classified error that is not expected of itself as written, and is expected of itself with the intended lookup |
| Logger.ToZapLevel | logger.go:35-48 | succeeds exactly on the four level names, maps each name to its level, and otherwise fails with "unknown log level: " and the input |
| Logger.ToZapLevelOfName | logger.go:35-48 | every level is parsed back from its own name |
| Logger.ToZapEncoding | logger.go:57-66 | succeeds exactly on "text" and "json", maps "text" to zap's "console" encoder and "json" to its "json" encoder, and otherwise fails with "unknown log encoding: " and the input |
| Logger.ToZapEncodingInjective | logger.go:57-66 | distinct accepted encodings give distinct zap encoders |
| Logger.ConvertToZapField | logger.go:158-175 | the key is kept; the placeholder `Any(key, "")` is used exactly for an unknown kind |
| Logger.FieldOfFactory | logger.go:158-175 | a parameter from each factory becomes the field of its kind, carrying the original value |
| Logger.ConvertToZapFields | logger.go:143-156 | the fields are those of the parameters whose key was not seen before, in order, and no two fields share a key |
| Logger.DeduplicatedKeys | logger.go:143-156 | deduplication keeps the set of keys and leaves each key once |
| Logger.DeduplicatedFirstWins | logger.go:143-156 | for each key, the parameter kept is the first one with that key |
| Logger.DeduplicatedKeepsOrder | logger.go:143-156 | the kept parameters are the input's parameters at strictly increasing positions |
| Logger.FirstIndicesAreFirstOccurrences | logger.go:143-156 | each kept position is the first position of its key in the input |
| Logger.FieldForKey | logger.go:143-156 | a key of the input has exactly one field after conversion: that of the first parameter with the key |
| Logger.FirstWithKey | logger.go:143-156 | the first parameter with a key of the list is on the list and has that key |
| Logger.FirstWithKeyConcat | logger.go:143-156 | in a concatenation, the first parameter with a key comes from the first part when that part has the key |
| Logger.KeysOfConcat | logger.go:143-156 | the keys of a concatenation are the union of the keys of its parts |
| Logger.MergeParams | logger.go:130-141 | the result is the lists concatenated in argument order, and its length is the capacity the first loop computes |
| Logger.FlattenTwo | logger.go:130-141 | merging two lists yields their concatenation |
| Logger.FlattenFour | logger.go:130-141 | merging four lists yields their concatenation |
| Logger.LogFailure | logger.go:80-112 | the entry has the error's text and the deduplicated fields of the explicit, error, context and `err_type` parameters in that order, or of the explicit and context parameters for an unclassified error |
| Logger.Error | logger.go:80-95 | error level, the error's text, and the fields that `LogFailure` describes |
| Logger.Warn | logger.go:97-112 | warning level, the error's text, and the same fields as `Error` |
| Logger.LogMessage | logger.go:114-120 | the entry has the message and the deduplicated fields of the explicit parameters followed by the context's |
| Logger.Info | logger.go:114-116 | info level, the message, explicit parameters before context parameters |
| Logger.Debug | logger.go:118-120 | debug level, the message, explicit parameters before context parameters |
| Logger.CtxWithParams | logger.go:122-124 | the context's list is extended by the given parameters |
| Logger.ExplicitParamWins | logger.go:80-95 | an explicit parameter's key gets exactly the field of the first explicit parameter with it, over error and context parameters |
| Logger.ErrorParamBeatsContext | logger.go:80-95 | with no explicit parameter of that key, a classified error's own parameter beats the context's |
| Logger.ErrTypeField | logger.go:80-95 | a classified error always gives an `err_type` field: its type, unless an earlier parameter already uses the key |

## Left out

- `initLogger` and `Flush` (logger.go:126-128, 177-206): building and syncing the zap logger is zap configuration and I/O. Only the two string parsers they rely on are modelled.
- The zap sink: a log method returns the `Entry` it would pass to zap. Encoding and writing the entry are not modelled.
- `KVSprintf` (kv.go:63-65): it produces its value with `fmt.Sprintf`, foreign formatting code. What it produces is a `KVString` parameter, which is modelled.
- `errorDto.Format` (error.go:132-134): it writes `Error()` to an `fmt.State`, which is I/O. `ErrorText` models the text.
- `ErrType.String` and `ErrType.IsEmpty` (error.go:14-19) are one-line accessors. They are used throughout but have no contract of their own.
- The `KVParam` accessors `Key`, `Type`, `String`, `Bool`, `Int`, `Float`, `Time` and `Duration` (kv.go:27-57) have no rows. They are field reads, or small conversions of the int slot. The factories' contracts and `KV.MismatchedAccessors` state what they return.
- Errors.WithMsgWrap: the code differs from the documented behaviour (type and parameters carry over unchanged) when the receiver's native error holds a `*errorDto`. Then `NewErr` re-homes that inner record: the wrap message is dropped and the inner record's native error and parameters come along. The model follows the code. The constructors only build records without such nesting (`Errors.NewErrIsFlat`, `Errors.FlatHasFlatChain`), so the difference shows only for a record written as a struct literal inside the package.
- `errorDto.Type`, `errorDto.Params` and `errorDto.IsOfType` (error.go:97-99, 124-130) are field reads. They appear in the lemmas about `WithType` and `WithMsgWrap`. `Params` returns a clone in Go; over immutable sequences the clone is the same value.
- Errors.Wrap: pkg/errors builds two links, `withStack` around `withMessage`. The model uses one link with the same text and cause. Stack traces are not modelled, and `errors.Unwrap` takes one step where Go takes two. The links that `errors.As` can find are the same for the target types used in error.go. The same holds for `errors.Is`, except with the inner `withMessage` link as the target: Go can find that link, and the model has no such link.
- Errors.As and Errors.Is model the search over the chain only. Reflection-based assignability, custom `As`/`Is` methods and multi-error (`Unwrap() []error`) chains are not modelled; none of the types here defines them.
- Errors.NewErr, Errors.WithParams, Errors.WithType, Errors.WithMsgWrap: the addresses of new allocations are parameters, and the model does not check that they are fresh. `WithMsgWrap` passes one address to the three records it allocates, because only the last one can be observed.
- Go slice aliasing: `append` in `CtxWithValue` and `WithParams` may share a backing array with the caller's slice. Parameter lists are values here, so a later write through a shared slice is not modelled.
- Context keys are strings here. Go compares `interface{}` keys by dynamic type and value, and the untyped-string key `"log_params"` is modelled as that string.
- Go's `int` is taken to be 64 bits wide; `KVParamType` is an `int64`.
- `float64` values are IEEE-754 bit patterns that are stored and returned, never computed with. `time.Time` is its Unix-nanosecond count, so the calendar, location and monotonic reading are not modelled. Instants whose `UnixNano` overflows are outside the model.
- Logger.Error, Logger.Warn: `err.Error()` on a nil error panics in Go. The model takes a non-nil error.
- Concurrency is not modelled: the logger holds no mutable state of its own.
- The documented behaviour is that a classified error is "expected" of itself when its type matches. The code does not do this, for the reason given under Findings. The model follows the code (`Errors.IsExpected`) and gives the intended lookup separately (`Errors.IsExpectedIntended`).

## Findings

| source | as written | input that shows it | evidently intended | confidence | as-written member | corrected member |
|---|---|---|---|---|---|---|
| error.go:112-114 | `IsExpected` calls `errors.As` with a target of the value type `errorDto`. Every constructor returns `*errorDto`, so the lookup never finds the inspected record. The call then falls back to `errors.Is(e.err, inspected)`, which never sees the record itself. | `e := NewErrFromMsg("disk full").WithType("IO")`; `e.IsExpected(e)` is false | the lookup should target `*errorDto`, as `NewErr` does, so a classified error is expected of itself | medium, not executed | Errors.IsExpectedSelfCounterexample | Errors.IsExpectedOfItselfIntended |
