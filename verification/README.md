# Exception-classification filters, modelled in Dafny

This project models the two global exception filters of `src/lib/filter.ts`
in a NestJS backend. `AllExceptionWithMessageFilter` is the verbose filter.
`AllExceptionFilter` is the terse filter. Each filter's `catch` receives an
error raised while a request was handled. It switches on the error's runtime
type name (`exception.constructor.name`) and calls the framework's
`super.catch` with one of two things:

- a new HTTP exception (404, 400, 403, 409 or 500) whose body is
  `{ statusCode, error }`, plus `message` and `name` in the verbose filter;
- the raised error itself, unchanged, when its type name contains
  `"Exception"` and no case of the switch names it.

A QueryFailedError is a 409 when its message contains
`duplicate key value violates unique constraint`, and a 500 otherwise.

`catch` is modelled as the sequence of `super.catch` calls it makes, in
order (`Filter.Catch(policy, err): seq<Emission>`). Each switch is a clause
table copied from its class and run with JavaScript switch semantics
(module `SwitchStatement`): entry at the first case whose label equals the
type name, or else at `default`, then clause after clause until a `break`.
The terse filter's PermissionDeniedError clause has no `break`. Its fallthrough
into the bad-request clause therefore comes from those semantics and is not
written in by hand.

Modules:

- `Text`: `Includes`, a model of `String.prototype.includes` as a left-to-right scan, and
  its independent definition `Contains` (some index at which the pattern occurs).
- `Response`: the raised error, the policy (which class is installed), the
  HTTP exception kinds with their status codes and labels, the emissions,
  `Build`, which constructs the body, and `Redact`, which drops the
  verbose-only fields.
- `SwitchStatement`: clause tables and JavaScript switch execution.
- `Rules`: the reference classification as an ordered rule list (`Classify`)
  and `Render`, which turns one outcome into one `super.catch` call.
- `Filter`: the two clause tables, `Catch`, and the corrected terse table.
- `FilterProperties`: the properties of `Catch` for every input.

On PermissionDeniedError the terse filter calls `super.catch` twice, first
with a 403 and then with a 400. The model records both calls. What the
framework does with the second call is outside this model.

## Model

| member | source | states |
|---|---|---|
| Text.IncludesIsContains | src/lib/filter.ts:66-68 | the `includes` test on the message is true exactly when the pattern occurs at some index of the message |
| Text.IncludesInfix | src/lib/filter.ts:145-147 | the duplicate-key pattern is found whatever text comes before and after it |
| Response.VerboseBuildRedactsToTerse | src/lib/filter.ts:24-176 | for every exception kind and raised error, the terse body is the verbose body with `message` and `name` dropped, and the two bodies differ |
| SwitchStatement.FindCase | src/lib/filter.ts:24-26 | the switch enters the first case clause whose label equals the type name, and no earlier clause matches |
| SwitchStatement.Entry | src/lib/filter.ts:24-103 | execution starts at the first matching case; only when no case matches does it start at `default` |
| Filter.VerboseSwitchFollowsRules | src/lib/filter.ts:24-103 | the verbose switch makes exactly the one call that the ordered rule list prescribes, for every raised error |
| Filter.TerseSwitchRun | src/lib/filter.ts:110-176 | the terse switch makes the one call the rule list prescribes, except on PermissionDeniedError, where it makes the 403 call and then the 400 call |
| Filter.Catch | src/lib/filter.ts:23-104 | one or two calls; two exactly for the terse filter on PermissionDeniedError; bodies carry the status and label of their exception; verbose bodies carry the input's message and name, terse bodies carry neither; a passthrough is the only call, hands on the raised error unchanged, and happens only for an unlisted name containing "Exception" |
| Filter.CorrectedTerseSwitchFollowsRules | src/lib/filter.ts:121-128 | with a `break` added to the PermissionDeniedError clause, the terse switch follows the rule list for every input |
| Filter.CorrectedCatch | src/lib/filter.ts:109-177 | with the `break` added, both filters make exactly the one call the rule list prescribes |
| FilterProperties.CatchFollowsRules | src/lib/filter.ts:110-176 | `catch` equals the single call the rule list prescribes exactly when the filter is verbose or the type name is not PermissionDeniedError |
| FilterProperties.NotFoundNamesAre404 | src/lib/filter.ts:24-176 | NotFoundError and EntityNotFoundError give one 404 "Not found" NotFoundException, under both filters and for any message |
| FilterProperties.BadRequestNamesAre400 | src/lib/filter.ts:24-176 | the six domain-validation names give one 400 "Bad request" BadRequestException, under both filters |
| FilterProperties.QueryFailedIsConflictIffDuplicateKey | src/lib/filter.ts:24-176 | a QueryFailedError gives one call; it is 409 "Conflict" if and only if the message contains the duplicate-key text, and 500 "Internal Server Error" otherwise |
| FilterProperties.DuplicateKeyAnywhereIsConflict | src/lib/filter.ts:143-155 | a QueryFailedError whose message has the duplicate-key text anywhere in it is a 409 ConflictException |
| FilterProperties.UnlistedNamesPassThroughOr500 | src/lib/filter.ts:90-102 | a type name with no case of its own is passed through unchanged if it contains "Exception", and is one 500 "Internal Server Error" call if not |
| FilterProperties.PermissionDeniedFallsThroughInTerse | src/lib/filter.ts:121-142 | PermissionDeniedError: the verbose filter makes one 403 "Forbidden" call; the terse filter makes a 403 "Forbidden" call followed by a 400 "Bad request" call |
| FilterProperties.TerseIsRedactedVerbose | src/lib/filter.ts:23-177 | the terse filter's calls are the verbose filter's calls with `message` and `name` removed, if and only if the type name is not PermissionDeniedError |
| FilterProperties.CorrectedTerseIsRedactedVerbose | src/lib/filter.ts:121-128 | with the `break` added, the terse filter's calls are the verbose filter's with `message` and `name` removed, for every input |
| FilterProperties.CorrectionOnlyAffectsPermissionDenied | src/lib/filter.ts:121-128 | adding the `break` changes the terse filter's calls exactly for PermissionDeniedError |
| FilterProperties.ExampleEntityNotFound | src/lib/filter.ts:111-120 | EntityNotFoundError "user 7 missing" gives a 404 "Not found" body, with the message and name only under the verbose filter |
| FilterProperties.ExampleDuplicateKey | src/lib/filter.ts:143-155 | a QueryFailedError reporting a violated `users_email_key` constraint gives a 409 "Conflict" body |
| FilterProperties.ExampleConnectionReset | src/lib/filter.ts:156-163 | a QueryFailedError "connection reset" gives a 500 "Internal Server Error" body |
| FilterProperties.ExampleUnlistedException | src/lib/filter.ts:90-92 | a RandomDomainException is passed through unchanged |

The ordered rule list `Rules.Classify` and `Rules.Render` are the reference
definitions that these members are proved against. They carry no contract of
their own.

## Findings

| source | as written | input that shows it | evidently intended | confidence | as-written member | corrected member |
|---|---|---|---|---|---|---|
| src/lib/filter.ts:121-128 | the PermissionDeniedError clause of `AllExceptionFilter.catch` has no `break`, so control falls into the bad-request clause and `super.catch` is called a second time, with a 400 | `AllExceptionFilter`, error of type `PermissionDeniedError` | one 403 "Forbidden" call, as `AllExceptionWithMessageFilter` makes (lines 53-63) | high that the two classes disagree; not executed | FilterProperties.PermissionDeniedFallsThroughInTerse | Filter.CorrectedCatch |

## Left out

- The `Logger.warn` startup message in the verbose filter's constructor (src/lib/filter.ts:17-20) is left out. It is a logging side effect and has no effect on responses.
- `BaseExceptionFilter.catch` and `ArgumentsHost` are the framework's serialisation and transport. They are not part of this model. Each `super.catch` call is recorded as an emission and is not executed, so the response a client finally sees after two calls is not modelled.
- src/dev/main.ts, the bootstrap that creates the application, installs the verbose filter and listens, is not part of this model.
- JavaScript reflection is not modelled. The raised error is a pair of strings, its type name and its message. An error that is `null` or `undefined` makes the source throw when it reads `exception.constructor.name`; the model has no such inputs. A `message` that is not a string is outside the model too: the source then throws only in the QueryFailedError clause, where it calls `includes` on the message, and otherwise copies the value into the verbose body unchanged.
- `Text.Includes` works on Dafny characters. It models `includes` on UTF-16 code units only to the extent that the two strings are compared character by character.
