/** The Experience record of backend/models/experience.py. Dates are day
    numbers, so `date - date` in days is integer subtraction; `created_at`
    is an integer timestamp. */
module ExperienceModel {
  import opened Common

  datatype Experience = Experience(
    id: int,
    jobTitle: string,
    companyName: string,
    experienceDescription: string,
    difficulty: string,
    offerReceived: bool,
    applicationDate: int,
    finalDecisionDate: int,
    userId: int,
    createdAt: int)

  /** `calculate_timeline_days`: the number of days from application to decision. */
  function TimelineDays(e: Experience): (d: int)
    ensures e.applicationDate + d == e.finalDecisionDate
    ensures d >= 0 <==> e.finalDecisionDate >= e.applicationDate
  {
    e.finalDecisionDate - e.applicationDate
  }

  /** The dictionary `to_dict` produces, without the ISO formatting of its dates. */
  datatype ExperienceDict = ExperienceDict(
    id: int,
    jobTitle: string,
    companyName: string,
    experienceDescription: string,
    difficulty: string,
    offerReceived: bool,
    applicationDate: int,
    finalDecisionDate: int,
    applicationTimelineDays: int,
    userId: int,
    authorUsername: string,
    createdAt: int)

  /** `to_dict`, given the username of the record's author (its `author` relation). */
  function ToDict(e: Experience, authorUsername: string): (d: ExperienceDict)
    ensures d.id == e.id && d.userId == e.userId && d.createdAt == e.createdAt
    ensures d.jobTitle == e.jobTitle && d.companyName == e.companyName
    ensures d.experienceDescription == e.experienceDescription
    ensures d.difficulty == e.difficulty && d.offerReceived == e.offerReceived
    ensures d.applicationDate == e.applicationDate && d.finalDecisionDate == e.finalDecisionDate
    ensures d.applicationDate + d.applicationTimelineDays == d.finalDecisionDate
    ensures d.authorUsername == authorUsername
  {
    ExperienceDict(e.id, e.jobTitle, e.companyName, e.experienceDescription,
      e.difficulty, e.offerReceived, e.applicationDate, e.finalDecisionDate,
      TimelineDays(e), e.userId, authorUsername, e.createdAt)
  }

  /** The keys `update_from_dict` looks at, after the service has parsed the
      dates (`None` = the key is absent). */
  datatype Patch = Patch(
    jobTitle: Option<string>,
    companyName: Option<string>,
    experienceDescription: Option<string>,
    difficulty: Option<string>,
    offerReceived: Option<bool>,
    applicationDate: Option<int>,
    finalDecisionDate: Option<int>)

  const EmptyPatch := Patch(None, None, None, None, None, None, None)

  function Merge<T>(o: Option<T>, current: T): T {
    if o.Some? then o.value else current
  }

  /** `update_from_dict`: each present key overwrites its field. */
  function UpdateFromDict(e: Experience, p: Patch): (r: Experience)
    ensures r.id == e.id && r.userId == e.userId && r.createdAt == e.createdAt
    ensures p.jobTitle.Some? ==> r.jobTitle == p.jobTitle.value
    ensures p.jobTitle.None? ==> r.jobTitle == e.jobTitle
    ensures p.companyName.Some? ==> r.companyName == p.companyName.value
    ensures p.companyName.None? ==> r.companyName == e.companyName
    ensures p.experienceDescription.Some? ==> r.experienceDescription == p.experienceDescription.value
    ensures p.experienceDescription.None? ==> r.experienceDescription == e.experienceDescription
    ensures p.difficulty.Some? ==> r.difficulty == p.difficulty.value
    ensures p.difficulty.None? ==> r.difficulty == e.difficulty
    ensures p.offerReceived.Some? ==> r.offerReceived == p.offerReceived.value
    ensures p.offerReceived.None? ==> r.offerReceived == e.offerReceived
    ensures p.applicationDate.Some? ==> r.applicationDate == p.applicationDate.value
    ensures p.applicationDate.None? ==> r.applicationDate == e.applicationDate
    ensures p.finalDecisionDate.Some? ==> r.finalDecisionDate == p.finalDecisionDate.value
    ensures p.finalDecisionDate.None? ==> r.finalDecisionDate == e.finalDecisionDate
  {
    e.(jobTitle := Merge(p.jobTitle, e.jobTitle),
       companyName := Merge(p.companyName, e.companyName),
       experienceDescription := Merge(p.experienceDescription, e.experienceDescription),
       difficulty := Merge(p.difficulty, e.difficulty),
       offerReceived := Merge(p.offerReceived, e.offerReceived),
       applicationDate := Merge(p.applicationDate, e.applicationDate),
       finalDecisionDate := Merge(p.finalDecisionDate, e.finalDecisionDate))
  }

  /** The patch with no keys leaves the record as it was. */
  lemma EmptyPatchIsIdentity(e: Experience)
    ensures UpdateFromDict(e, EmptyPatch) == e
  {
  }

  /** Applying the same patch twice is applying it once. */
  lemma UpdateFromDictIdempotent(e: Experience, p: Patch)
    ensures UpdateFromDict(UpdateFromDict(e, p), p) == UpdateFromDict(e, p)
  {
  }

  /** The patch whose present keys are those of `q`, falling back to `p`. */
  function Then(p: Patch, q: Patch): Patch {
    Patch(
      if q.jobTitle.Some? then q.jobTitle else p.jobTitle,
      if q.companyName.Some? then q.companyName else p.companyName,
      if q.experienceDescription.Some? then q.experienceDescription else p.experienceDescription,
      if q.difficulty.Some? then q.difficulty else p.difficulty,
      if q.offerReceived.Some? then q.offerReceived else p.offerReceived,
      if q.applicationDate.Some? then q.applicationDate else p.applicationDate,
      if q.finalDecisionDate.Some? then q.finalDecisionDate else p.finalDecisionDate)
  }

  /** Two successive updates are one update with the later keys winning. */
  lemma UpdateFromDictCompose(e: Experience, p: Patch, q: Patch)
    ensures UpdateFromDict(UpdateFromDict(e, p), q) == UpdateFromDict(e, Then(p, q))
  {
  }

  /** `to_dict` reads the dates of the record as it is now: after an update the
      timeline is that of the merged dates. */
  lemma TimelineFollowsUpdate(e: Experience, p: Patch, author: string)
    ensures ToDict(UpdateFromDict(e, p), author).applicationTimelineDays ==
      Merge(p.finalDecisionDate, e.finalDecisionDate) - Merge(p.applicationDate, e.applicationDate)
  {
  }
}
