/** The project-list workflow across requests: the staging action of the
    Project admin writes the session slot, and a later submission of the List
    form reads it to fill a new List. */
module Workflow {
  import opened Records
  import opened Decimal
  import opened Admin
  import opened Views

  /** Staging replaces any earlier slot instead of adding to it. */
  lemma LaterStagingWins(slot: Slot, first: seq<Project>, second: seq<Project>)
    requires second != []
    ensures Staged(Staged(slot, first), second) == Staged(slot, second) == Some(Ids(second))
  {
  }

  /** Staging never stores an empty key list: an empty slot can only be one
      that was already empty. */
  lemma StagingNeverStoresEmpty(slot: Slot, queryset: seq<Project>)
    requires Staged(slot, queryset) == Some([])
    ensures slot == Some([]) && queryset == []
  {
  }

  /** Staging a queryset and then submitting a valid form yields a List whose
      members are exactly the selected projects, one per selected row, and a
      message whose count is the List's size. */
  lemma StageThenSubmit(s: SiteState, queryset: seq<Project>, req: Request)
    requires IsValidPost(req) && queryset != [] && DistinctIds(queryset)
    ensures var (t, resp) := Submit(s.(session := Staged(s.session, queryset)), req);
      var made := t.lists[|s.lists|];
      && |t.lists| == |s.lists| + 1
      && (forall p :: p in made.projects <==> exists q :: q in queryset && q.id == p)
      && |made.projects| == |queryset|
      && t.messages == s.messages + [AddedMessage(|made.projects|, req.name)]
      && resp == Redirect(ListChangelistUrl)
  {
    var ids := Ids(queryset);
    DistinctMembers(ids);
    forall p ensures p in ids <==> exists q :: q in queryset && q.id == p {
      if p in ids {
        var i :| 0 <= i < |ids| && ids[i] == p;
        assert queryset[i] in queryset;
      }
      if exists q :: q in queryset && q.id == p {
        var q :| q in queryset && q.id == p;
        var i :| 0 <= i < |queryset| && queryset[i] == q;
        assert ids[i] == p;
      }
    }
  }

  /** The view never clears the slot: submitting the form twice makes two
      Lists with the same members, and the slot stays as it was. */
  lemma ResubmitCreatesSecondList(s: SiteState, req: Request)
    requires IsValidPost(req) && s.session.Some?
    ensures var t := Submit(Submit(s, req).0, req).0;
      && |t.lists| == |s.lists| + 2
      && t.lists[..|s.lists|] == s.lists
      && t.lists[|s.lists|] == t.lists[|s.lists| + 1]
      && t.lists[|s.lists|].projects == Members(s.session.value)
      && t.session == s.session
  {
  }

  /** With no staged slot, the view has already stored the new List, empty,
      before iterating the slot fails; a later submission after staging makes
      a second, filled List and leaves the empty one in place. */
  lemma MissingSlotLeavesEmptyList(s: SiteState, req: Request, queryset: seq<Project>)
    requires IsValidPost(req) && s.session.None? && queryset != []
    ensures var (t, resp) := Submit(s, req);
      && resp == NotIterable
      && t.lists == s.lists + [ListRecord(req.name, req.user, req.user, {})]
      && t.messages == s.messages
      && var u := Submit(t.(session := Staged(t.session, queryset)), req).0;
         && u.lists[..|t.lists|] == t.lists
         && u.lists[|t.lists|].projects == Members(Ids(queryset))
  {
  }

  /** Selecting nothing and submitting, when nothing was staged before, does
      not give an empty List with a count of 0: the slot is still absent, so
      the request fails after storing the empty List. */
  lemma EmptySelectionFromFreshSession(s: SiteState, req: Request)
    requires IsValidPost(req) && s.session.None?
    ensures Submit(s.(session := Staged(s.session, [])), req).1 == NotIterable
  {
  }

  /** Staging projects 7, 12 and 19 and submitting "Q3 Shortlist". */
  method Q3ShortlistRun(user: UserId, budget: int, currency: string)
    returns (resp: Response, made: ListRecord, message: string)
    ensures resp == Redirect("/admin/project_management/list/")
    ensures made == ListRecord("Q3 Shortlist", user, user, {7, 12, 19})
    ensures message == "Successfully added 3 projects to list Q3 Shortlist."
  {
    var site := new Site(SiteState(None, [], []));
    var selection := [Project(7, budget, currency), Project(12, budget, currency), Project(19, budget, currency)];
    assert Ids(selection) == [7, 12, 19];
    CreateList(site, selection);
    assert site.State() == SiteState(Some([7, 12, 19]), [], []);
    resp := CreateCustomList(site, Request("POST", user, "Q3 Shortlist", true));
    assert Members([7, 12, 19]) == {7, 12, 19};
    made := site.lists[0];
    message := site.messages[0];
    Q3ShortlistMessage();
  }

  lemma Q3ShortlistMessage()
    ensures AddedMessage(3, "Q3 Shortlist") == "Successfully added 3 projects to list Q3 Shortlist."
  {
    assert NatToDecimal(3) == "3";
    assert MessageHead + "3" == "Successfully added 3";
    assert "Successfully added 3" + MessageMiddle == "Successfully added 3 projects to list ";
    assert "Successfully added 3 projects to list " + "Q3 Shortlist"
        == "Successfully added 3 projects to list Q3 Shortlist";
  }
}
