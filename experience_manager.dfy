// The experience list and experience editor of the admin dashboard: the
// search over company, position and description, the newest-first order of
// the list, the technology chips, the "current role" switch and the required
// fields. Date parsing is a parameter (`dateOf`, the time of `new Date(s)`),
// and so is the time of `new Date()` (`now`).
module ExperienceManager {
  import opened Wrappers
  import Seqs
  import Text
  import Entities
  import EntryList
  import AdminManager

  const Present := "Present"

  predicate ExperienceMatches(e: Entities.Experience, query: string)
  {
    AdminManager.Mentions(e.company, query) || AdminManager.Mentions(e.position, query)
    || AdminManager.Mentions(e.description, query)
  }

  function FilteredExperiences(experiences: seq<Entities.Experience>, query: string)
    : seq<Entities.Experience>
  {
    Seqs.Filter(experiences, e => ExperienceMatches(e, query))
  }

  lemma FilteredExperiencesExact(experiences: seq<Entities.Experience>, query: string, e: Entities.Experience)
    ensures e in FilteredExperiences(experiences, query) <==>
      e in experiences
      && (AdminManager.Mentions(e.company, query) || AdminManager.Mentions(e.position, query)
          || AdminManager.Mentions(e.description, query))
  {
    AdminManager.FilterExact(experiences, e => ExperienceMatches(e, query), e);
  }

  lemma EmptyQueryKeepsAllExperiences(experiences: seq<Entities.Experience>)
    ensures FilteredExperiences(experiences, "") == experiences
  {
    forall k | 0 <= k < |experiences| ensures ExperienceMatches(experiences[k], "") {
      AdminManager.EmptyQueryMentioned(experiences[k].company);
    }
    Seqs.FilterAll(experiences, e => ExperienceMatches(e, ""));
  }

  // ------------------------------------------------------------- ordering

  /** The time an entry is ordered by: now for a current role, otherwise its
      parsed end date. */
  function EndKey(e: Entities.Experience, now: int, dateOf: string -> int): int
  {
    if e.endDate == Present then now else dateOf(e.endDate)
  }

  /** Newest first: no entry is followed by one with a later key. */
  predicate Descending(s: seq<Entities.Experience>, key: Entities.Experience -> int)
  {
    forall i, j :: 0 <= i < j < |s| ==> key(s[i]) >= key(s[j])
  }

  /** Puts `e` in front of the first entry with a key no later than its own. */
  function Insert(e: Entities.Experience, s: seq<Entities.Experience>, key: Entities.Experience -> int)
    : seq<Entities.Experience>
  {
    if s == [] || key(s[0]) <= key(e) then [e] + s else [s[0]] + Insert(e, s[1..], key)
  }

  /** A stable sort of `s` by descending key, which is what `Array.prototype.sort`
      gives with the comparator `key(b) - key(a)`. */
  function SortDescending(s: seq<Entities.Experience>, key: Entities.Experience -> int)
    : seq<Entities.Experience>
  {
    if s == [] then [] else Insert(s[0], SortDescending(s[1..], key), key)
  }

  lemma {:induction false} InsertFacts(e: Entities.Experience, s: seq<Entities.Experience>, key: Entities.Experience -> int)
    requires Descending(s, key)
    ensures multiset(Insert(e, s, key)) == multiset(s) + multiset{e}
    ensures Descending(Insert(e, s, key), key)
    decreases |s|
  {
    if s == [] || key(s[0]) <= key(e) {
    } else {
      InsertFacts(e, s[1..], key);
      InsertBehindHead(e, s, Insert(e, s[1..], key), key);
    }
  }

  /** The step of `InsertFacts` where `e` goes behind the head of `s`. */
  lemma InsertBehindHead(e: Entities.Experience, s: seq<Entities.Experience>, rest: seq<Entities.Experience>,
                         key: Entities.Experience -> int)
    requires s != [] && key(s[0]) > key(e) && Descending(s, key)
    requires multiset(rest) == multiset(s[1..]) + multiset{e} && Descending(rest, key)
    ensures multiset([s[0]] + rest) == multiset(s) + multiset{e}
    ensures Descending([s[0]] + rest, key)
  {
    assert s == [s[0]] + s[1..];
    forall k | 0 <= k < |rest| ensures key(s[0]) >= key(rest[k]) {
      assert rest[k] in multiset(s[1..]) + multiset{e};
      if rest[k] != e {
        assert rest[k] in s[1..];
      }
    }
  }

  lemma {:induction false} SortDescendingFacts(s: seq<Entities.Experience>, key: Entities.Experience -> int)
    ensures multiset(SortDescending(s, key)) == multiset(s)
    ensures Descending(SortDescending(s, key), key)
    decreases |s|
  {
    if s != [] {
      SortDescendingFacts(s[1..], key);
      InsertFacts(s[0], SortDescending(s[1..], key), key);
      assert s == [s[0]] + s[1..];
    }
  }

  /** The list the manager shows: the search result, newest first. */
  function SortedExperiences(experiences: seq<Entities.Experience>, query: string, now: int, dateOf: string -> int)
    : seq<Entities.Experience>
  {
    SortDescending(FilteredExperiences(experiences, query), e => EndKey(e, now, dateOf))
  }

  /** The shown list holds exactly the matching entries, each as often as in the
      search result, and an entry never comes after one that ended later. */
  lemma SortedExperiencesFacts(experiences: seq<Entities.Experience>, query: string, now: int, dateOf: string -> int)
    ensures multiset(SortedExperiences(experiences, query, now, dateOf)) == multiset(FilteredExperiences(experiences, query))
    ensures Descending(SortedExperiences(experiences, query, now, dateOf), e => EndKey(e, now, dateOf))
  {
    SortDescendingFacts(FilteredExperiences(experiences, query), e => EndKey(e, now, dateOf));
  }

  /** A current role is listed before every role that ended before now. */
  lemma CurrentRoleFirst(experiences: seq<Entities.Experience>, query: string, now: int, dateOf: string -> int, i: nat, j: nat)
    requires i < |SortedExperiences(experiences, query, now, dateOf)| && j < |SortedExperiences(experiences, query, now, dateOf)|
    requires SortedExperiences(experiences, query, now, dateOf)[i].endDate == Present
    requires SortedExperiences(experiences, query, now, dateOf)[j].endDate != Present
    requires dateOf(SortedExperiences(experiences, query, now, dateOf)[j].endDate) < now
    ensures i < j
  {
    SortedExperiencesFacts(experiences, query, now, dateOf);
  }

  // --------------------------------------------------------------- editor

  /** The id of an entry created at clock value `now`: `exp-<now>`. */
  function NewExperienceId(now: nat): (id: string)
    ensures |id| > 4 && id[..4] == "exp-" && Text.DecimalValue(id[4..]) == now
  {
    Text.DecimalRoundTrip(now);
    "exp-" + Text.NatToString(now)
  }

  function NewExperience(now: nat): Entities.Experience
  {
    Entities.Experience(NewExperienceId(now), "", "", "", "", "", [], Some(""))
  }

  /** The text fields the form writes through `handleChange` (the end date has
      its own handler, as its input is disabled for a current role). */
  datatype Field = Company | Position | Location | StartDate | Description

  class ExperienceEditor {
    var formData: Entities.Experience
    var techInput: string
    var isCurrentRole: bool

    /** While the role is current the end date is "Present". */
    predicate Valid()
      reads this
    {
      isCurrentRole ==> formData.endDate == Present
    }

    constructor (experience: Option<Entities.Experience>, now: nat)
      ensures formData == (if experience.Some? then experience.value else NewExperience(now))
      ensures techInput == ""
      ensures isCurrentRole <==> formData.endDate == Present
      ensures Valid()
    {
      var initial := if experience.Some? then experience.value else NewExperience(now);
      formData := initial;
      techInput := "";
      isCurrentRole := initial.endDate == Present;
    }

    method HandleChange(f: Field, value: string)
      modifies this
      ensures f == Company ==> formData == old(formData).(company := value)
      ensures f == Position ==> formData == old(formData).(position := value)
      ensures f == Location ==> formData == old(formData).(location := Some(value))
      ensures f == StartDate ==> formData == old(formData).(startDate := value)
      ensures f == Description ==> formData == old(formData).(description := value)
      ensures techInput == old(techInput) && isCurrentRole == old(isCurrentRole)
      ensures old(Valid()) ==> Valid()
    {
      match f
      case Company => formData := formData.(company := value);
      case Position => formData := formData.(position := value);
      case Location => formData := formData.(location := Some(value));
      case StartDate => formData := formData.(startDate := value);
      case Description => formData := formData.(description := value);
    }

    /** The end-date input, which accepts typing only when the role is not current. */
    method HandleEndDateChange(value: string)
      requires !isCurrentRole
      modifies this
      ensures formData == old(formData).(endDate := value)
      ensures techInput == old(techInput) && isCurrentRole == old(isCurrentRole)
      ensures Valid()
    {
      formData := formData.(endDate := value);
    }

    method SetTechInput(value: string)
      modifies this
      ensures techInput == value && formData == old(formData) && isCurrentRole == old(isCurrentRole)
    {
      techInput := value;
    }

    /** Adds the trimmed input as a technology, and clears the input, only when
        it is non-empty and not yet listed. */
    method AddTech()
      modifies this
      ensures formData == old(formData).(technologies := EntryList.Added(old(formData.technologies), old(techInput)))
      ensures techInput == if EntryList.Accepts(old(formData.technologies), old(techInput)) then "" else old(techInput)
      ensures isCurrentRole == old(isCurrentRole)
      ensures old(Valid()) ==> Valid()
    {
      var tech := Text.Trim(techInput);
      if tech != "" && tech !in formData.technologies {
        formData := formData.(technologies := formData.technologies + [tech]);
        techInput := "";
      }
    }

    method RemoveTech(tech: string)
      modifies this
      ensures formData == old(formData).(technologies := EntryList.Removed(old(formData.technologies), tech))
      ensures techInput == old(techInput) && isCurrentRole == old(isCurrentRole)
      ensures old(Valid()) ==> Valid()
    {
      formData := formData.(technologies := EntryList.Removed(formData.technologies, tech));
    }

    /** The "current role" checkbox: checking it sets the end date to "Present",
        unchecking it empties the end date. */
    method HandleCurrentRoleChange(checked: bool)
      modifies this
      ensures isCurrentRole == checked
      ensures formData == old(formData).(endDate := if checked then Present else "")
      ensures techInput == old(techInput)
      ensures Valid()
    {
      isCurrentRole := checked;
      formData := formData.(endDate := if checked then Present else "");
    }

    /** The entry handed to `onSave`, or None (an alert) when company, position,
        start date or description is empty, or when there is neither an end date
        nor the current-role mark. */
    method HandleSubmit() returns (saved: Option<Entities.Experience>)
      ensures saved.Some? <==>
        formData.company != "" && formData.position != "" && formData.startDate != ""
        && formData.description != "" && (isCurrentRole || formData.endDate != "")
      ensures saved.Some? ==> saved.value == formData
    {
      if formData.company == "" || formData.position == "" || formData.startDate == "" || formData.description == "" {
        return None;
      }
      if !isCurrentRole && formData.endDate == "" {
        return None;
      }
      return Some(formData);
    }
  }

  /** Because a current role always carries "Present", the form is accepted
      exactly when all five date and text fields are filled in. */
  lemma SubmitNeedsEndDate(e: Entities.Experience, isCurrentRole: bool)
    requires isCurrentRole ==> e.endDate == Present
    ensures (e.company != "" && e.position != "" && e.startDate != "" && e.description != ""
             && (isCurrentRole || e.endDate != ""))
      <==> (e.company != "" && e.position != "" && e.startDate != "" && e.description != ""
            && e.endDate != "")
  {
  }

  /** Marking a role as current and unmarking it again leaves the form without an
      end date, so it can no longer be submitted. */
  method CurrentRoleToggledOff(now: nat, company: string, position: string, start: string, description: string)
    returns (saved: Option<Entities.Experience>)
    ensures saved.None?
  {
    var editor := new ExperienceEditor(None, now);
    editor.HandleChange(Company, company);
    editor.HandleChange(Position, position);
    editor.HandleChange(StartDate, start);
    editor.HandleChange(Description, description);
    editor.HandleCurrentRoleChange(true);
    editor.HandleCurrentRoleChange(false);
    saved := editor.HandleSubmit();
  }
}
