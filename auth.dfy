/** The bearer-token gate every endpoint runs first (`verify_token`). */
module Auth {

  import opened Outcomes
  import opened Text

  /** Passing the gate, or the failure it raises. */
  datatype Gate = Pass | Reject(failure: Failure)

  const BearerPrefix: string := "Bearer "
  const MissingHeaderDetail: string := "Missing Authorization header"
  const InvalidTokenDetail: string := "Invalid token"
  /** `split()[1]` on a list of one field raises IndexError. */
  const IndexErrorText: string := "IndexError: list index out of range"

  /** The header is present and starts, case-sensitively, with "Bearer ". */
  predicate HasBearerPrefix(authorization: Option<string>)
  {
    authorization.Some? && BearerPrefix <= authorization.value
  }

  /** What follows "Bearer " in a header that has the prefix. */
  function AfterPrefix(authorization: Option<string>): string
    requires HasBearerPrefix(authorization)
  {
    authorization.value[|BearerPrefix|..]
  }

  /** `verify_token(authorization)` against the configured secret, which is
      `None` when the environment does not define it. */
  function VerifyToken(authorization: Option<string>, secret: Option<string>): (g: Gate)
    ensures g.Pass? ==> secret.Some? && HasBearerPrefix(authorization)
    ensures g.Reject? ==>
              g.failure in {HttpError(401, MissingHeaderDetail), HttpError(403, InvalidTokenDetail),
                            Unhandled(IndexErrorText)}
  {
    if authorization.None? || !(BearerPrefix <= authorization.value) then
      Reject(HttpError(401, MissingHeaderDetail))
    else
      var fields := Fields(authorization.value);
      if |fields| < 2 then Reject(Unhandled(IndexErrorText))
      else if Some(fields[1]) != secret then Reject(HttpError(403, InvalidTokenDetail))
      else Pass
  }

  /** A header with the prefix splits into "Bearer" and the fields of the rest. */
  lemma BearerFields(authorization: Option<string>)
    requires HasBearerPrefix(authorization)
    ensures Fields(authorization.value) == ["Bearer"] + Fields(AfterPrefix(authorization))
  {
    var h := authorization.value;
    var rest := AfterPrefix(authorization);
    assert h == "Bearer" + ([' '] + rest);
    FieldsOfWordThen("Bearer", [' '] + rest);
    FieldsAfterBlank([' '], rest);
  }

  /** A missing header, or one without the exact prefix "Bearer ", and only
      those, are refused with 401. */
  lemma MissingOrMalformedIs401(authorization: Option<string>, secret: Option<string>)
    ensures VerifyToken(authorization, secret) == Reject(HttpError(401, MissingHeaderDetail))
        <==> !HasBearerPrefix(authorization)
  {
  }

  /** "Bearer " followed only by whitespace has no second field: the gate
      crashes instead of answering 401. */
  lemma BlankTokenCrashes(authorization: Option<string>, secret: Option<string>)
    ensures VerifyToken(authorization, secret) == Reject(Unhandled(IndexErrorText))
        <==> HasBearerPrefix(authorization) && Blank(AfterPrefix(authorization))
  {
    if HasBearerPrefix(authorization) {
      BearerFields(authorization);
      FieldsEmptyIffBlank(AfterPrefix(authorization));
    }
  }

  /** Past the prefix, the token is the first word after "Bearer " and any
      further words are ignored: an unequal token is refused with 403, an
      equal one passes. */
  lemma TokenDecides(authorization: Option<string>, secret: Option<string>)
    requires HasBearerPrefix(authorization) && !Blank(AfterPrefix(authorization))
    ensures var token := FirstWord(AfterPrefix(authorization));
      VerifyToken(authorization, secret)
        == if Some(token) == secret then Pass else Reject(HttpError(403, InvalidTokenDetail))
  {
    var rest := AfterPrefix(authorization);
    BearerFields(authorization);
    FieldsEmptyIffBlank(rest);
    FirstFieldIsFirstWord(rest);
    var fields := Fields(authorization.value);
    assert fields[1] == Fields(rest)[0];
  }

  /** "Bearer ", any run of whitespace, a one-word token, then nothing or
      whitespace and anything: the token alone decides the outcome. */
  lemma DelimitedTokenDecides(sp: string, token: string, tail: string, secret: Option<string>)
    requires Blank(sp) && token != [] && NoSpace(token)
    requires tail == [] || IsSpace(tail[0])
    ensures VerifyToken(Some(BearerPrefix + sp + token + tail), secret)
         == if Some(token) == secret then Pass else Reject(HttpError(403, InvalidTokenDetail))
  {
    var h := Some(BearerPrefix + sp + token + tail);
    assert AfterPrefix(h) == sp + (token + tail);
    BearerFields(h);
    FieldsAfterBlank(sp, token + tail);
    FieldsOfWordThen(token, tail);
  }

  /** Words after the token do not change the outcome. */
  lemma ExtraFieldsIgnored(token: string, extra: string, secret: Option<string>)
    requires token != [] && NoSpace(token)
    ensures VerifyToken(Some(BearerPrefix + token + " " + extra), secret)
         == VerifyToken(Some(BearerPrefix + token), secret)
  {
    DelimitedTokenDecides([], token, [' '] + extra, secret);
    assert BearerPrefix + [] + token + ([' '] + extra) == BearerPrefix + token + " " + extra;
    DelimitedTokenDecides([], token, [], secret);
    assert BearerPrefix + [] + token + [] == BearerPrefix + token;
  }

  /** The exact header "Bearer <secret>" passes when the secret is one word. */
  lemma SecretTokenPasses(secret: string)
    requires secret != [] && NoSpace(secret)
    ensures VerifyToken(Some(BearerPrefix + secret), Some(secret)) == Pass
  {
    DelimitedTokenDecides([], secret, [], Some(secret));
    assert BearerPrefix + [] + secret + [] == BearerPrefix + secret;
  }

  /** An unset, empty or multi-word secret can never be presented: no header passes. */
  lemma UnsplittableSecretNeverPasses(authorization: Option<string>, secret: Option<string>)
    requires secret.None? || secret.value == [] || !NoSpace(secret.value)
    ensures VerifyToken(authorization, secret) != Pass
  {
    if HasBearerPrefix(authorization) {
      var fields := Fields(authorization.value);
      FieldsAreWords(authorization.value);
      if |fields| >= 2 {
        assert fields[1] in fields;
      }
    }
  }
}
