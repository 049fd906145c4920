/** Verified walks through the services: register and authenticate, create
    an experience and then move only its application date past the stored
    decision date, log out twice. Dates are proleptic Gregorian day numbers. */
module Scenario {
  import opened Common
  import opened ExperienceModel
  import Validators
  import AuthService
  import ExperienceStore
  import Decorators

  /** Both registration attempts below pass the input rules. */
  lemma AliceInputsValid()
    ensures Validators.ValidateRegistration(Some("alice"), Some("secret1")) == Pass
    ensures Validators.ValidateRegistration(Some("alice"), Some("another1")) == Pass
  {
    assert "alice"[0] != '_';
  }

  method RegisterThenAuthenticate()
  {
    var auth := new AuthService.AuthService();
    AliceInputsValid();
    var reg := auth.RegisterUser(Some("alice"), Some("secret1"), "T");
    assert reg.status == 201 && reg.token == Some("T");
    assert auth.sessions == map["T" := 1];

    // A second registration of the same name is a conflict, whatever the password.
    var dup := auth.RegisterUser(Some("alice"), Some("another1"), "U");
    assert dup.status == 409 && auth.sessions == map["T" := 1];

    assert "Bearer T" == Validators.BearerPrefix + "T";
    var guard := Decorators.RequireAuth(Some("Bearer T"), auth.sessions);
    assert guard == Decorators.Invoke(1);

    var _, _, first := auth.LogoutUser("T");
    var _, _, second := auth.LogoutUser("T");
    assert first == 200 && second == 200;
    assert auth.VerifyToken("T").None?;
  }

  /** A complete creation payload: hard interview, offer received, nine days to decision. */
  const AcmePayload := Validators.Payload(
    Some("Software Engineer"), Some("Acme"), Some("Three rounds of interviews."),
    Some("Hard"), Some(Validators.Bool(true)), Some("2025-01-01"), Some("2025-01-10"))

  lemma AcmePayloadIsValid()
    ensures Validators.ValidateExperienceData(AcmePayload) == Pass
  {
    assert Validators.AllPresent(AcmePayload);
  }

  method CreateThenMoveApplicationDate()
  {
    var parse := (s: string) =>
      if s == "2025-01-01" then Some(739252)
      else if s == "2025-01-10" then Some(739261)
      else if s == "2025-01-15" then Some(739266)
      else None;

    var store := new ExperienceStore.ExperienceTable();
    var data := AcmePayload;
    AcmePayloadIsValid();
    assert parse(data.applicationDate.value) == Some(739252);
    assert parse(data.finalDecisionDate.value) == Some(739261);
    var created := store.CreateExperience(1, data, parse, 0);
    assert created.Ok? && TimelineDays(created.value.experience) == 9;

    var id := created.value.experience.id;
    var patch := Validators.Payload(None, None, None, None, None, Some("2025-01-15"), None);
    assert parse("2025-01-15") == Some(739266);
    ExperienceStore.OneDateAgainstStoredOther(created.value.experience, "2025-01-15", parse);
    var updated := store.UpdateExperience(id, 1, patch, parse);
    assert updated == Err(400, ExperienceStore.DateOrderMessage);
    assert store.GetExperienceById(id) == Ok(200, created.value.experience);

    var other := store.DeleteExperience(id, 2);
    assert other == Err(403, ExperienceStore.ForbiddenDeleteMessage);
  }
}
