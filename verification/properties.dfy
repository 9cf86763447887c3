/** What `catch` of the two filters does, stated for every raised error:
    the status and label each type name receives, the duplicate-key test,
    the passthrough default, the fallthrough in the terse filter, and how
    the two filters relate to each other and to the rule list. */
module FilterProperties {
  import opened Text
  import opened Response
  import opened SwitchStatement
  import opened Rules
  import opened Filter

  /** Both filters make exactly the one `super.catch` call the rule list
      prescribes, except the terse filter on PermissionDeniedError. */
  lemma CatchFollowsRules(policy: Policy, err: RaisedError)
    ensures policy == Verbose || err.typeName != PermissionDeniedName <==>
              Catch(policy, err) == [Render(Classify(err), policy, err)]
  {
    match policy
    case Verbose => VerboseSwitchFollowsRules(err);
    case Terse => TerseSwitchRun(err);
  }

  /** The two not-found names give one 404 "Not found" envelope, whatever the message. */
  lemma NotFoundNamesAre404(policy: Policy, err: RaisedError)
    requires err.typeName in NotFoundNames
    ensures var r := Catch(policy, err);
      |r| == 1 && r[0].Envelope? && r[0].exception == NotFoundException
      && r[0].statusCode == 404 && r[0].error == "Not found"
  {
    CatchFollowsRules(policy, err);
  }

  /** The six domain-validation names give one 400 "Bad request" envelope. */
  lemma BadRequestNamesAre400(policy: Policy, err: RaisedError)
    requires err.typeName in BadRequestNames
    ensures var r := Catch(policy, err);
      |r| == 1 && r[0].Envelope? && r[0].exception == BadRequestException
      && r[0].statusCode == 400 && r[0].error == "Bad request"
  {
    CatchFollowsRules(policy, err);
  }

  /** A QueryFailedError gives one envelope: 409 "Conflict" exactly when the
      message contains the duplicate-key text, 500 "Internal Server Error"
      otherwise. */
  lemma QueryFailedIsConflictIffDuplicateKey(policy: Policy, err: RaisedError)
    requires err.typeName == QueryFailedName
    ensures var r := Catch(policy, err);
      && |r| == 1 && r[0].Envelope?
      && (r[0].statusCode == 409 <==> Contains(err.message, DuplicateKeyMarker))
      && (Contains(err.message, DuplicateKeyMarker) ==>
            r[0].exception == ConflictException && r[0].error == "Conflict")
      && (!Contains(err.message, DuplicateKeyMarker) ==>
            r[0].exception == InternalServerErrorException
            && r[0].statusCode == 500 && r[0].error == "Internal Server Error")
  {
    CatchFollowsRules(policy, err);
    IncludesIsContains(err.message, DuplicateKeyMarker);
  }

  /** The duplicate-key text is recognised with any text before and after it. */
  lemma DuplicateKeyAnywhereIsConflict(policy: Policy, before: string, after: string)
    ensures var r := Catch(policy, RaisedError(QueryFailedName, before + DuplicateKeyMarker + after));
      r == [Build(policy, ConflictException, RaisedError(QueryFailedName, before + DuplicateKeyMarker + after))]
      && r[0].statusCode == 409
  {
    var err := RaisedError(QueryFailedName, before + DuplicateKeyMarker + after);
    IncludesInfix(before, DuplicateKeyMarker, after);
    CatchFollowsRules(policy, err);
  }

  /** A type name without a case of its own is passed through unchanged when
      it contains "Exception" and answered with 500 otherwise; nothing else
      about the error matters. */
  lemma UnlistedNamesPassThroughOr500(policy: Policy, err: RaisedError)
    requires err.typeName !in ExplicitNames
    ensures var r := Catch(policy, err);
      && (Contains(err.typeName, ExceptionMarker) ==> r == [Passthrough(err)])
      && (!Contains(err.typeName, ExceptionMarker) ==>
            |r| == 1 && r[0].Envelope? && r[0].exception == InternalServerErrorException
            && r[0].statusCode == 500 && r[0].error == "Internal Server Error")
  {
    CatchFollowsRules(policy, err);
    IncludesIsContains(err.typeName, ExceptionMarker);
  }

  /** PermissionDeniedError: the verbose filter makes one 403 call; the terse
      filter, whose clause lacks a `break`, makes a 403 call and then a 400 call. */
  lemma PermissionDeniedFallsThroughInTerse(err: RaisedError)
    requires err.typeName == PermissionDeniedName
    ensures var v := Catch(Verbose, err);
      |v| == 1 && v[0].Envelope? && v[0].statusCode == 403 && v[0].error == "Forbidden"
    ensures var t := Catch(Terse, err);
      && |t| == 2 && t[0].Envelope? && t[1].Envelope?
      && t[0].statusCode == 403 && t[0].error == "Forbidden"
      && t[1].statusCode == 400 && t[1].error == "Bad request"
  {
    CatchFollowsRules(Verbose, err);
    TerseSwitchRun(err);
  }

  /** The terse filter's calls are the verbose filter's calls with message and
      name removed — for every type name except PermissionDeniedError. */
  lemma TerseIsRedactedVerbose(err: RaisedError)
    ensures RedactAll(Catch(Verbose, err)) == Catch(Terse, err) <==>
              err.typeName != PermissionDeniedName
  {
    CatchFollowsRules(Verbose, err);
    CatchFollowsRules(Terse, err);
    if err.typeName == PermissionDeniedName {
      assert |Catch(Terse, err)| == 2;
    } else {
      var v, t := Catch(Verbose, err), Catch(Terse, err);
      assert RedactAll(v)[0] == t[0];
    }
  }

  /** With the `break` added, the two filters agree on every raised error up to
      the verbose-only fields. */
  lemma CorrectedTerseIsRedactedVerbose(err: RaisedError)
    ensures RedactAll(CorrectedCatch(Verbose, err)) == CorrectedCatch(Terse, err)
  {
    var v, t := CorrectedCatch(Verbose, err), CorrectedCatch(Terse, err);
    assert RedactAll(v)[0] == t[0];
  }

  /** Adding the `break` changes the terse filter on PermissionDeniedError and
      on no other type name. */
  lemma CorrectionOnlyAffectsPermissionDenied(err: RaisedError)
    ensures CorrectedCatch(Terse, err) == Catch(Terse, err) <==>
              err.typeName != PermissionDeniedName
  {
    CatchFollowsRules(Terse, err);
  }

  /** Worked example: a missing entity, under both filters. */
  lemma ExampleEntityNotFound()
    ensures Catch(Terse, RaisedError("EntityNotFoundError", "user 7 missing"))
              == [Envelope(NotFoundException, 404, "Not found", None)]
    ensures Catch(Verbose, RaisedError("EntityNotFoundError", "user 7 missing"))
              == [Envelope(NotFoundException, 404, "Not found",
                           Some(Detail("user 7 missing", "EntityNotFoundError")))]
  {
    CatchFollowsRules(Terse, RaisedError("EntityNotFoundError", "user 7 missing"));
    CatchFollowsRules(Verbose, RaisedError("EntityNotFoundError", "user 7 missing"));
  }

  /** Worked example: a unique-constraint violation reported by the database driver. */
  lemma ExampleDuplicateKey()
    ensures Catch(Terse, RaisedError("QueryFailedError",
                                     "duplicate key value violates unique constraint \"users_email_key\""))
              == [Envelope(ConflictException, 409, "Conflict", None)]
  {
    var quoted := " \"users_email_key\"";
    assert "duplicate key value violates unique constraint \"users_email_key\""
        == [] + DuplicateKeyMarker + quoted;
    DuplicateKeyAnywhereIsConflict(Terse, [], quoted);
  }

  /** Worked example: any other query failure. */
  lemma ExampleConnectionReset()
    ensures Catch(Terse, RaisedError("QueryFailedError", "connection reset"))
              == [Envelope(InternalServerErrorException, 500, "Internal Server Error", None)]
  {
    CatchFollowsRules(Terse, RaisedError("QueryFailedError", "connection reset"));
  }

  /** Worked example: an unlisted error that names itself an exception. */
  lemma ExampleUnlistedException()
    ensures Catch(Verbose, RaisedError("RandomDomainException", "x"))
              == [Passthrough(RaisedError("RandomDomainException", "x"))]
  {
    assert "RandomDomainException" == "RandomDomain" + ExceptionMarker + [];
    IncludesInfix("RandomDomain", ExceptionMarker, []);
    CatchFollowsRules(Verbose, RaisedError("RandomDomainException", "x"));
  }
}
