/** The two filter classes of src/lib/filter.ts, `AllExceptionWithMessageFilter`
    and `AllExceptionFilter`, as clause tables run with JavaScript switch
    semantics, and what their `catch` does for every raised error. */
module Filter {
  import opened Text
  import opened Response
  import opened SwitchStatement
  import opened Rules

  /** The switch of AllExceptionWithMessageFilter.catch: every clause breaks. */
  const VerboseSwitch: seq<Clause> := [
    Case(NotFoundNames, Raise(NotFoundException), true),
    Case(BadRequestNames, Raise(BadRequestException), true),
    Case({PermissionDeniedName}, Raise(ForbiddenException), true),
    Case({QueryFailedName}, QueryFailedRule, true),
    Default(DefaultRule, false)
  ]

  /** The switch of AllExceptionFilter.catch: the PermissionDeniedError clause
      comes before the bad-request clause and has no `break`. */
  const TerseSwitch: seq<Clause> := [
    Case(NotFoundNames, Raise(NotFoundException), true),
    Case({PermissionDeniedName}, Raise(ForbiddenException), false),
    Case(BadRequestNames, Raise(BadRequestException), true),
    Case({QueryFailedName}, QueryFailedRule, true),
    Default(DefaultRule, false)
  ]

  /** Running the verbose table follows the rule list exactly. */
  lemma VerboseSwitchFollowsRules(err: RaisedError)
    ensures RunSwitch(VerboseSwitch, Verbose, err) == [Render(Classify(err), Verbose, err)]
  {
    var sw, name := VerboseSwitch, err.typeName;
    var i := Entry(sw, name);
    if name in NotFoundNames {
      assert Selects(sw[0], name);
      assert i == 0;
    } else if name in BadRequestNames {
      assert Selects(sw[1], name);
      assert i == 1;
    } else if name == PermissionDeniedName {
      assert Selects(sw[2], name);
      assert i == 2;
    } else if name == QueryFailedName {
      assert Selects(sw[3], name);
      assert i == 3;
    } else {
      assert forall j :: 0 <= j < |sw| ==> !Selects(sw[j], name);
      assert sw[4].Default? && forall j :: 0 <= j < 4 ==> sw[j].Case?;
      assert i == 4;
    }
  }

  /** Running the terse table follows the rule list, except that a
      PermissionDeniedError runs the forbidden clause and then the
      bad-request clause. */
  lemma TerseSwitchRun(err: RaisedError)
    ensures RunSwitch(TerseSwitch, Terse, err) ==
              if err.typeName == PermissionDeniedName
              then [Build(Terse, ForbiddenException, err), Build(Terse, BadRequestException, err)]
              else [Render(Classify(err), Terse, err)]
  {
    var sw, name := TerseSwitch, err.typeName;
    var i := Entry(sw, name);
    if name in NotFoundNames {
      assert Selects(sw[0], name);
      assert i == 0;
    } else if name == PermissionDeniedName {
      assert Selects(sw[1], name);
      assert i == 1;
      assert RunFrom(sw, 2, Terse, err) == [Build(Terse, BadRequestException, err)];
    } else if name in BadRequestNames {
      assert Selects(sw[2], name);
      assert i == 2;
    } else if name == QueryFailedName {
      assert Selects(sw[3], name);
      assert i == 3;
    } else {
      assert forall j :: 0 <= j < |sw| ==> !Selects(sw[j], name);
      assert sw[4].Default? && forall j :: 0 <= j < 4 ==> sw[j].Case?;
      assert i == 4;
    }
  }

  /** `catch(exception, host)` of the installed filter: the `super.catch`
      calls it makes, in order. */
  function Catch(policy: Policy, err: RaisedError): (r: seq<Emission>)
    ensures 1 <= |r| <= 2
    ensures |r| == 2 <==> policy == Terse && err.typeName == PermissionDeniedName
    ensures forall e :: e in r && e.Envelope? ==>
              e.statusCode == e.exception.StatusCode() && e.error == e.exception.Label()
    ensures forall e :: e in r && e.Envelope? ==>
              e.detail == (if policy == Verbose then Some(Detail(err.message, err.typeName)) else None)
    ensures forall e :: e in r && e.Passthrough? ==>
              r == [Passthrough(err)] && err.typeName !in ExplicitNames
              && Includes(err.typeName, ExceptionMarker)
  {
    match policy
    case Verbose => VerboseSwitchFollowsRules(err); RunSwitch(VerboseSwitch, policy, err)
    case Terse => TerseSwitchRun(err); RunSwitch(TerseSwitch, policy, err)
  }

  /** AllExceptionFilter's table with the `break` the PermissionDeniedError
      clause evidently lacks. */
  const CorrectedTerseSwitch: seq<Clause> := TerseSwitch[1 := Case({PermissionDeniedName}, Raise(ForbiddenException), true)]

  lemma CorrectedTerseSwitchFollowsRules(err: RaisedError)
    ensures RunSwitch(CorrectedTerseSwitch, Terse, err) == [Render(Classify(err), Terse, err)]
  {
    var sw, name := CorrectedTerseSwitch, err.typeName;
    var i := Entry(sw, name);
    if name in NotFoundNames {
      assert Selects(sw[0], name);
      assert i == 0;
    } else if name == PermissionDeniedName {
      assert Selects(sw[1], name);
      assert i == 1;
    } else if name in BadRequestNames {
      assert Selects(sw[2], name);
      assert i == 2;
    } else if name == QueryFailedName {
      assert Selects(sw[3], name);
      assert i == 3;
    } else {
      assert forall j :: 0 <= j < |sw| ==> !Selects(sw[j], name);
      assert sw[4].Default? && forall j :: 0 <= j < 4 ==> sw[j].Case?;
      assert i == 4;
    }
  }

  /** `catch` of the two filters once the missing `break` is added: exactly
      one `super.catch` call, the one the rule list prescribes. */
  function CorrectedCatch(policy: Policy, err: RaisedError): (r: seq<Emission>)
    ensures r == [Render(Classify(err), policy, err)]
  {
    match policy
    case Verbose => VerboseSwitchFollowsRules(err); RunSwitch(VerboseSwitch, policy, err)
    case Terse => CorrectedTerseSwitchFollowsRules(err); RunSwitch(CorrectedTerseSwitch, policy, err)
  }
}
