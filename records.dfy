/** The entities of project_management/models.py that the list workflow, the
    audit rule and the list filters touch, and the per-user state those
    requests share: the session's staging slot, the stored List rows and the
    queue of user messages. */
module Records {

  datatype Option<+T> = None | Some(value: T)

  /** Primary key of a Project row. */
  type ProjectId = int

  /** Primary key of a framework user (the `created_by` / `updated_by` targets). */
  type UserId = int

  /** The default user key of every `created_by` / `updated_by` foreign key. */
  const DefaultUser: UserId := 1

  /** A Project as the staging action and the list filters see it: its key,
      its budget amount in cents (the amount has two decimal places) and the
      currency code stored beside the amount. */
  datatype Project = Project(id: ProjectId, budgetCents: int, currency: string)

  /** A stored List row: its name, creator, last updater and the set of
      projects its many-to-many relation holds. */
  datatype ListRecord = ListRecord(name: string, createdBy: UserId, updatedBy: UserId, projects: set<ProjectId>)

  /** The session slot under the key 'data': absent, or the staged project keys. */
  type Slot = Option<seq<ProjectId>>

  /** One user's session slot and message queue, and the List table as that
      user's requests see it. The List table is shared by all users; requests
      of other users are not part of this state. */
  datatype SiteState = SiteState(session: Slot, lists: seq<ListRecord>, messages: seq<string>)

  /** The set a many-to-many relation holds after `add` of every key of `ids`. */
  function Members(ids: seq<ProjectId>): (m: set<ProjectId>)
    ensures forall p :: p in m <==> p in ids
  {
    if ids == [] then {} else {ids[0]} + Members(ids[1..])
  }

  /** The primary keys of a queryset, in queryset order. */
  function Ids(queryset: seq<Project>): (ids: seq<ProjectId>)
    ensures |ids| == |queryset|
    ensures forall i :: 0 <= i < |queryset| ==> ids[i] == queryset[i].id
  {
    if queryset == [] then [] else [queryset[0].id] + Ids(queryset[1..])
  }

  predicate Distinct(ids: seq<ProjectId>) {
    forall i, j :: 0 <= i < j < |ids| ==> ids[i] != ids[j]
  }

  /** Rows of one queryset carry distinct primary keys. */
  predicate DistinctIds(queryset: seq<Project>) {
    Distinct(Ids(queryset))
  }

  /** A key sequence without repetitions adds exactly one member per key. */
  lemma {:induction false} DistinctMembers(ids: seq<ProjectId>)
    requires Distinct(ids)
    ensures |Members(ids)| == |ids|
  {
    if ids != [] {
      var rest := ids[1..];
      forall i, j | 0 <= i < j < |rest| ensures rest[i] != rest[j] {
        assert rest[i] == ids[i + 1] && rest[j] == ids[j + 1];
      }
      DistinctMembers(rest);
      forall k | 0 <= k < |rest| ensures rest[k] != ids[0] {
        assert rest[k] == ids[k + 1];
      }
      assert ids[0] !in Members(rest);
    }
  }

  /** The state one user's requests work on: that user's session slot and
      pending messages, and the shared List table as those requests see it. */
  class Site {
    var session: Slot
    var lists: seq<ListRecord>
    var messages: seq<string>

    function State(): SiteState
      reads this
    {
      SiteState(session, lists, messages)
    }

    constructor (s: SiteState)
      ensures State() == s
    {
      session, lists, messages := s.session, s.lists, s.messages;
    }
  }
}
