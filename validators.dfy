/** The input checks of backend/utils/validators.py: registration input,
    experience payloads, and the bearer token of the Authorization header. */
module Validators {
  import opened Common
  import opened Text
  import Config

  const RequiredMessage := "Username and password are required"
  const UsernameTooShortMessage := "Username must be at least 3 characters long"
  const UsernameTooLongMessage := "Username must be at most 80 characters long"
  const PasswordTooShortMessage := "Password must be at least 6 characters long"
  const UsernameCharsetMessage := "Username can only contain letters, numbers, and underscores"

  /** Python truthiness of an optional string: present and non-empty. */
  predicate Given(s: Option<string>) {
    s.Some? && s.value != ""
  }

  /** The character rule stated declaratively: only letters, digits and
      underscores, and at least one character that is not an underscore. */
  predicate UsernameCharsetOk(u: string) {
    (exists i :: 0 <= i < |u| && u[i] != '_') &&
    (forall i :: 0 <= i < |u| ==> u[i] == '_' || IsAsciiAlnum(u[i]))
  }

  /** Everything a registration must satisfy, independent of check order. */
  predicate ValidCredentials(u: string, p: string) {
    Config.MinUsernameLength <= |u| <= Config.MaxUsernameLength &&
    |p| >= Config.MinPasswordLength &&
    UsernameCharsetOk(u)
  }

  /** `Validator.validate_registration`: the checks run in source order and
      the first one that fires names the failure. */
  function ValidateRegistration(username: Option<string>, password: Option<string>): (r: Check)
    ensures !Given(username) || !Given(password) ==> r == Fail(RequiredMessage)
    ensures r == Pass <==>
      Given(username) && Given(password) && ValidCredentials(username.value, password.value)
    ensures r == Fail(UsernameTooShortMessage) <==>
      Given(username) && Given(password) && |username.value| < Config.MinUsernameLength
    ensures r == Fail(UsernameTooLongMessage) <==>
      Given(username) && Given(password) && |username.value| > Config.MaxUsernameLength
    ensures r == Fail(PasswordTooShortMessage) <==>
      Given(username) && Given(password) &&
      Config.MinUsernameLength <= |username.value| <= Config.MaxUsernameLength &&
      |password.value| < Config.MinPasswordLength
    ensures r == Fail(UsernameCharsetMessage) <==>
      Given(username) && Given(password) &&
      Config.MinUsernameLength <= |username.value| <= Config.MaxUsernameLength &&
      |password.value| >= Config.MinPasswordLength &&
      !UsernameCharsetOk(username.value)
  {
    if !Given(username) || !Given(password) then Fail(RequiredMessage)
    else if |username.value| < Config.MinUsernameLength then Fail(UsernameTooShortMessage)
    else if |username.value| > Config.MaxUsernameLength then Fail(UsernameTooLongMessage)
    else if |password.value| < Config.MinPasswordLength then Fail(PasswordTooShortMessage)
    else if !IsAlnum(RemoveUnderscores(username.value)) then
      RemoveUnderscoresAlnum(username.value);
      Fail(UsernameCharsetMessage)
    else
      RemoveUnderscoresAlnum(username.value);
      Pass
  }

  /** A username made only of underscores is refused, whatever its length. */
  lemma AllUnderscoresRejected(u: string, p: string)
    requires forall i :: 0 <= i < |u| ==> u[i] == '_'
    ensures ValidateRegistration(Some(u), Some(p)) != Pass
  {
  }

  // ---------------------------------------------------------------------
  // Experience payloads

  /** The JSON value under `offer_received`: a boolean; a number equal to 0 or
      1 (`0`, `1`, `0.0`, `1.0`), which Python compares equal to `False` and
      `True` though it is not a `bool`; or anything else. */
  datatype OfferValue = Bool(b: bool) | Num01(b: bool) | NonBool

  /** The request body of an experience create or update: one optional entry
      per key the service reads (`None` = the key is absent). */
  datatype Payload = Payload(
    jobTitle: Option<string>,
    companyName: Option<string>,
    experienceDescription: Option<string>,
    difficulty: Option<string>,
    offerReceived: Option<OfferValue>,
    applicationDate: Option<string>,
    finalDecisionDate: Option<string>)

  const RequiredFields: seq<string> := [
    "job_title", "company_name", "experience_description",
    "difficulty", "offer_received", "application_date",
    "final_decision_date"]

  const DifficultyMessage := "Difficulty must be one of ['Easy', 'Medium', 'Hard']"
  const JobTitleMessage := "Job title must be at least 2 characters long"
  const CompanyNameMessage := "Company name must be at least 2 characters long"
  const DescriptionMessage := "Experience description must be at least 10 characters long"
  const OfferMessage := "Offer received must be a boolean"

  /** `key in data`. */
  predicate Has(p: Payload, key: string) {
    if key == "job_title" then p.jobTitle.Some?
    else if key == "company_name" then p.companyName.Some?
    else if key == "experience_description" then p.experienceDescription.Some?
    else if key == "difficulty" then p.difficulty.Some?
    else if key == "offer_received" then p.offerReceived.Some?
    else if key == "application_date" then p.applicationDate.Some?
    else if key == "final_decision_date" then p.finalDecisionDate.Some?
    else false
  }

  predicate AllPresent(p: Payload) {
    p.jobTitle.Some? && p.companyName.Some? && p.experienceDescription.Some? &&
    p.difficulty.Some? && p.offerReceived.Some? &&
    p.applicationDate.Some? && p.finalDecisionDate.Some?
  }

  /** The search of the `for field in required_fields` loop: the index of the
      first key of `fields` that the payload lacks, or `|fields|`. */
  function FirstMissing(p: Payload, fields: seq<string>): (k: nat)
    ensures k <= |fields|
    ensures forall j :: 0 <= j < k ==> Has(p, fields[j])
    ensures k < |fields| ==> !Has(p, fields[k])
  {
    if fields == [] then 0
    else if !Has(p, fields[0]) then 0
    else 1 + FirstMissing(p, fields[1..])
  }

  /** The content rules that apply once every key is present. */
  predicate ValidContent(p: Payload)
    requires AllPresent(p)
  {
    p.difficulty.value in Config.ValidDifficulties &&
    |p.jobTitle.value| >= 2 &&
    |p.companyName.value| >= 2 &&
    |p.experienceDescription.value| >= 10 &&
    p.offerReceived.value.Bool?
  }

  lemma AllPresentIffNoneMissing(p: Payload)
    ensures AllPresent(p) <==> forall j :: 0 <= j < |RequiredFields| ==> Has(p, RequiredFields[j])
  {
    if forall j :: 0 <= j < |RequiredFields| ==> Has(p, RequiredFields[j]) {
      assert Has(p, RequiredFields[0]) && Has(p, RequiredFields[1]) && Has(p, RequiredFields[2]);
      assert Has(p, RequiredFields[3]) && Has(p, RequiredFields[4]);
      assert Has(p, RequiredFields[5]) && Has(p, RequiredFields[6]);
    }
  }

  /** The checks after the key loop, in source order; each message names
      the first rule that fails. */
  function ContentCheck(p: Payload): (r: Check)
    requires AllPresent(p)
    ensures r == Pass <==> ValidContent(p)
    ensures r == Fail(DifficultyMessage) <==> p.difficulty.value !in Config.ValidDifficulties
    ensures r == Fail(JobTitleMessage) <==>
      p.difficulty.value in Config.ValidDifficulties && |p.jobTitle.value| < 2
    ensures r == Fail(CompanyNameMessage) <==>
      p.difficulty.value in Config.ValidDifficulties && |p.jobTitle.value| >= 2 &&
      |p.companyName.value| < 2
    ensures r == Fail(DescriptionMessage) <==>
      p.difficulty.value in Config.ValidDifficulties && |p.jobTitle.value| >= 2 &&
      |p.companyName.value| >= 2 && |p.experienceDescription.value| < 10
    ensures r == Fail(OfferMessage) <==>
      p.difficulty.value in Config.ValidDifficulties && |p.jobTitle.value| >= 2 &&
      |p.companyName.value| >= 2 && |p.experienceDescription.value| >= 10 && !p.offerReceived.value.Bool?
  {
    if p.difficulty.value !in Config.ValidDifficulties then Fail(DifficultyMessage)
    else if |p.jobTitle.value| < 2 then Fail(JobTitleMessage)
    else if |p.companyName.value| < 2 then Fail(CompanyNameMessage)
    else if |p.experienceDescription.value| < 10 then Fail(DescriptionMessage)
    else if !p.offerReceived.value.Bool? then Fail(OfferMessage)
    else Pass
  }

  /** Every message naming a missing key is 33 to 46 characters long, which
      no content message is. */
  lemma MissingMessageLength(k: nat)
    requires k < |RequiredFields|
    ensures 33 <= |"Missing required field: " + RequiredFields[k]| <= 46
  {
  }

  /** `Validator.validate_experience_data`. */
  function ValidateExperienceData(p: Payload): (r: Check)
    ensures forall k ::
      (0 <= k < |RequiredFields| && !Has(p, RequiredFields[k]) &&
       (forall j :: 0 <= j < k ==> Has(p, RequiredFields[j]))) ==>
      r == Fail("Missing required field: " + RequiredFields[k])
    ensures r == Pass <==> AllPresent(p) && ValidContent(p)
    ensures r == Fail(DifficultyMessage) <==>
      AllPresent(p) && p.difficulty.value !in Config.ValidDifficulties
    ensures r == Fail(JobTitleMessage) <==>
      AllPresent(p) && p.difficulty.value in Config.ValidDifficulties && |p.jobTitle.value| < 2
    ensures r == Fail(CompanyNameMessage) <==>
      AllPresent(p) && p.difficulty.value in Config.ValidDifficulties && |p.jobTitle.value| >= 2 &&
      |p.companyName.value| < 2
    ensures r == Fail(DescriptionMessage) <==>
      AllPresent(p) && p.difficulty.value in Config.ValidDifficulties && |p.jobTitle.value| >= 2 &&
      |p.companyName.value| >= 2 && |p.experienceDescription.value| < 10
    ensures r == Fail(OfferMessage) <==>
      AllPresent(p) && p.difficulty.value in Config.ValidDifficulties && |p.jobTitle.value| >= 2 &&
      |p.companyName.value| >= 2 && |p.experienceDescription.value| >= 10 && !p.offerReceived.value.Bool?
  {
    AllPresentIffNoneMissing(p);
    var k := FirstMissing(p, RequiredFields);
    if k < |RequiredFields| then
      var message := "Missing required field: " + RequiredFields[k];
      MissingMessageLength(k);
      assert |DifficultyMessage| == 52 && |JobTitleMessage| == 44 && |CompanyNameMessage| == 47;
      assert |DescriptionMessage| == 58 && |OfferMessage| == 32;
      assert message != DifficultyMessage && message != JobTitleMessage && message != CompanyNameMessage;
      assert message != DescriptionMessage && message != OfferMessage;
      Fail(message)
    else ContentCheck(p)
  }

  // ---------------------------------------------------------------------
  // Bearer tokens

  const BearerPrefix := "Bearer "

  /** `Validator.extract_token`, given the value of the Authorization header. */
  function ExtractToken(header: Option<string>): (r: Option<string>)
    ensures r.Some? <==> header.Some? && BearerPrefix <= header.value
    ensures r.Some? ==> header.value == BearerPrefix + r.value
  {
    if header.None? || header.value == "" then None
    else if !(BearerPrefix <= header.value) then None
    else Some(header.value[|BearerPrefix|..])
  }

  /** Extraction inverts prefixing, for every token including the empty one. */
  lemma ExtractTokenRoundTrip(t: string)
    ensures ExtractToken(Some(BearerPrefix + t)) == Some(t)
  {
    assert BearerPrefix <= BearerPrefix + t;
    assert (BearerPrefix + t)[|BearerPrefix|..] == t;
  }
}
