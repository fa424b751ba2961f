/** The checks the POST /bookmark handler runs on a create request before it
    stores anything. */
module Validation {
  import opened JsValues

  /** The four fields the handler destructures from the request body; any
      other field of the body is ignored. */
  datatype CreateRequest = CreateRequest(title: Json, url: Json, description: Json, rating: Json)

  /** Why a create request is refused, one value per check. */
  datatype Rejection =
    | MissingTitle
    | MissingUrl
    | MissingDescription
    | InvalidRating
    | InvalidUrl

  datatype Verdict = Accepted | Rejected(reason: Rejection)

  /** One check of the chain: whether the request passes it, and the rejection
      the handler answers with when it does not. */
  datatype Check = Check(passes: bool, onFailure: Rejection)

  /** The rating test as a condition that must hold: an integer from 0 to 5. */
  predicate RatingOk(rating: Json) {
    IsInteger(rating) && 0.0 <= rating.n <= 5.0
  }

  /** The accepted ratings are exactly the six numbers 0, 1, 2, 3, 4 and 5:
      both ends of the range are accepted, and 6, negative numbers, fractions
      and numeric strings are not. */
  lemma RatingOkIff(rating: Json)
    ensures RatingOk(rating) <==> rating in {Num(0.0), Num(1.0), Num(2.0), Num(3.0), Num(4.0), Num(5.0)}
  {
  }

  /** The handler's checks in the order it runs them: title present, url
      present, description present, rating an integer in [0, 5], url a web URI.
      `isWebUri` is the predicate of the URL-validation library. */
  function Checks(req: CreateRequest, isWebUri: Json -> bool): (cs: seq<Check>)
    ensures |cs| == 5
    ensures forall i, j :: 0 <= i < j < |cs| ==> cs[i].onFailure != cs[j].onFailure
  {
    [ Check(Truthy(req.title), MissingTitle),
      Check(Truthy(req.url), MissingUrl),
      Check(Truthy(req.description), MissingDescription),
      Check(RatingOk(req.rating), InvalidRating),
      Check(isWebUri(req.url), InvalidUrl) ]
  }

  /** The verdict of a chain of checks run in order and stopped at the first
      one that fails. */
  function FirstFailure(cs: seq<Check>): (v: Verdict)
    ensures v.Accepted? <==> forall i :: 0 <= i < |cs| ==> cs[i].passes
  {
    if cs == [] then Accepted
    else if !cs[0].passes then Rejected(cs[0].onFailure)
    else FirstFailure(cs[1..])
  }

  /** The first failing check decides the verdict, whatever follows it. */
  lemma {:induction false} FirstFailureAt(cs: seq<Check>, j: nat)
    requires j < |cs| && !cs[j].passes
    requires forall i :: 0 <= i < j ==> cs[i].passes
    ensures FirstFailure(cs) == Rejected(cs[j].onFailure)
  {
    if j > 0 {
      assert cs[0].passes;
      FirstFailureAt(cs[1..], j - 1);
    }
  }

  /** Checks after the first failing one are never consulted: two chains that
      agree up to and including a failing check have the same verdict. */
  lemma {:induction false} LaterChecksIgnored(cs: seq<Check>, ds: seq<Check>, j: nat)
    requires j < |cs| && j < |ds| && cs[..j + 1] == ds[..j + 1]
    requires !cs[j].passes
    ensures FirstFailure(cs) == FirstFailure(ds)
  {
    if cs[0].passes {
      assert cs[1..][..j] == cs[1..j + 1] == ds[1..j + 1] == ds[1..][..j];
      LaterChecksIgnored(cs[1..], ds[1..], j - 1);
    } else {
      assert ds[0] == cs[0];
    }
  }

  /** The outcome of validating a create request. */
  function Validate(req: CreateRequest, isWebUri: Json -> bool): (v: Verdict)
    ensures v.Accepted? <==>
      Truthy(req.title) && Truthy(req.url) && Truthy(req.description) && RatingOk(req.rating)
      && isWebUri(req.url)
  {
    var cs := Checks(req, isWebUri);
    assert (forall i :: 0 <= i < |cs| ==> cs[i].passes) <==>
      cs[0].passes && cs[1].passes && cs[2].passes && cs[3].passes && cs[4].passes;
    FirstFailure(cs)
  }

  /** The validation order: each rejection is returned exactly when its check
      fails and every earlier check passes, and the request is accepted exactly
      when all five checks pass. */
  lemma ValidationOrder(req: CreateRequest, isWebUri: Json -> bool)
    ensures Validate(req, isWebUri) == Rejected(MissingTitle) <==> !Truthy(req.title)
    ensures Validate(req, isWebUri) == Rejected(MissingUrl) <==>
      Truthy(req.title) && !Truthy(req.url)
    ensures Validate(req, isWebUri) == Rejected(MissingDescription) <==>
      Truthy(req.title) && Truthy(req.url) && !Truthy(req.description)
    ensures Validate(req, isWebUri) == Rejected(InvalidRating) <==>
      Truthy(req.title) && Truthy(req.url) && Truthy(req.description) && !RatingOk(req.rating)
    ensures Validate(req, isWebUri) == Rejected(InvalidUrl) <==>
      Truthy(req.title) && Truthy(req.url) && Truthy(req.description) && RatingOk(req.rating)
      && !isWebUri(req.url)
    ensures Validate(req, isWebUri) == Accepted <==>
      Truthy(req.title) && Truthy(req.url) && Truthy(req.description) && RatingOk(req.rating)
      && isWebUri(req.url)
  {
    var cs := Checks(req, isWebUri);
    if !cs[0].passes {
      FirstFailureAt(cs, 0);
    } else if !cs[1].passes {
      FirstFailureAt(cs, 1);
    } else if !cs[2].passes {
      FirstFailureAt(cs, 2);
    } else if !cs[3].passes {
      FirstFailureAt(cs, 3);
    } else if !cs[4].passes {
      FirstFailureAt(cs, 4);
    }
  }

  /** The URL-format predicate is consulted only when the first four checks
      pass: otherwise any two predicates give the same verdict. */
  lemma UrlFormatCheckedLast(req: CreateRequest, isWebUri: Json -> bool, other: Json -> bool)
    requires !(Truthy(req.title) && Truthy(req.url) && Truthy(req.description) && RatingOk(req.rating))
    ensures Validate(req, isWebUri) == Validate(req, other)
  {
    var cs, ds := Checks(req, isWebUri), Checks(req, other);
    var j := if !cs[0].passes then 0 else if !cs[1].passes then 1 else if !cs[2].passes then 2 else 3;
    assert cs[..j + 1] == ds[..j + 1];
    LaterChecksIgnored(cs, ds, j);
  }
}
