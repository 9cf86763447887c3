/** JavaScript `switch` semantics, as far as the filters use them.

    The first case clause whose label equals the discriminant is entered
    (or the default clause when none does), and clause bodies then run one
    after another until one ends in `break` or the switch ends. Stacked
    labels with empty bodies (`case 'A': case 'B': ...`) are one clause
    with a set of labels. */
module SwitchStatement {
  import opened Text
  import opened Response

  /** The body of one switch clause. */
  datatype Action =
    | Raise(kind: HttpException)   // one `super.catch(new <kind>(...))`
    | QueryFailedRule              // the duplicate-key test on the message
    | DefaultRule                  // the "Exception" test on the type name

  /** A clause of a JavaScript `switch`: its case labels (or `default`), its
      body, and whether the body ends in `break`. */
  datatype Clause =
    | Case(labels: set<string>, action: Action, breaks: bool)
    | Default(action: Action, breaks: bool)

  predicate Selects(c: Clause, name: string) {
    c.Case? && name in c.labels
  }

  /** The first case clause at or after `from` whose labels contain `name`,
      or `|sw|` when there is none. */
  function FindCase(sw: seq<Clause>, name: string, from: nat): (i: nat)
    requires from <= |sw|
    ensures from <= i <= |sw|
    ensures i < |sw| ==> Selects(sw[i], name)
    ensures forall j :: from <= j < i ==> !Selects(sw[j], name)
    decreases |sw| - from
  {
    if from == |sw| then from
    else if Selects(sw[from], name) then from
    else FindCase(sw, name, from + 1)
  }

  /** The first default clause at or after `from`, or `|sw|` when there is none. */
  function FindDefault(sw: seq<Clause>, from: nat): (i: nat)
    requires from <= |sw|
    ensures from <= i <= |sw|
    ensures i < |sw| ==> sw[i].Default?
    ensures forall j :: from <= j < i ==> !sw[j].Default?
    decreases |sw| - from
  {
    if from == |sw| then from
    else if sw[from].Default? then from
    else FindDefault(sw, from + 1)
  }

  /** Where execution of `switch (name)` begins: the first case whose label is
      `name`; failing that, the default clause; failing that, past the end. */
  function Entry(sw: seq<Clause>, name: string): (i: nat)
    ensures i <= |sw|
    ensures i < |sw| && sw[i].Case? ==>
              Selects(sw[i], name) && forall j :: 0 <= j < i ==> !Selects(sw[j], name)
    ensures i == |sw| || sw[i].Default? ==>
              forall j :: 0 <= j < |sw| ==> !Selects(sw[j], name)
    ensures i < |sw| && sw[i].Default? ==> forall j :: 0 <= j < i ==> !sw[j].Default?
    ensures i == |sw| ==> forall j :: 0 <= j < |sw| ==> !sw[j].Default?
  {
    var c := FindCase(sw, name, 0);
    if c < |sw| then c else FindDefault(sw, 0)
  }

  /** The `super.catch` calls one clause body makes. */
  function Perform(action: Action, policy: Policy, err: RaisedError): (r: seq<Emission>)
    ensures |r| == 1
  {
    match action
    case Raise(kind) => [Build(policy, kind, err)]
    case QueryFailedRule =>
      if Includes(err.message, DuplicateKeyMarker) then [Build(policy, ConflictException, err)]
      else [Build(policy, InternalServerErrorException, err)]
    case DefaultRule =>
      if Includes(err.typeName, ExceptionMarker) then [Passthrough(err)]
      else [Build(policy, InternalServerErrorException, err)]
  }

  /** Run clause `i` and, unless it breaks, every following clause. */
  function RunFrom(sw: seq<Clause>, i: nat, policy: Policy, err: RaisedError): (r: seq<Emission>)
    requires i <= |sw|
    ensures i < |sw| ==> 1 <= |r|
    ensures |r| <= |sw| - i
    decreases |sw| - i
  {
    if i == |sw| then []
    else Perform(sw[i].action, policy, err)
         + (if sw[i].breaks then [] else RunFrom(sw, i + 1, policy, err))
  }

  /** Execute `switch (err.typeName)` over `sw`. */
  function RunSwitch(sw: seq<Clause>, policy: Policy, err: RaisedError): seq<Emission> {
    RunFrom(sw, Entry(sw, err.typeName), policy, err)
  }
}
