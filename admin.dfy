/** The behaviour in project_management/admin.py: the "Create custom project
    list" bulk action of the Project admin, which stages the selected keys in
    the session; the `save_model` rule shared by the Client, List and Project
    admins, which stamps the acting user on the object before saving it; and
    the CSV export action's rows. */
module Admin {
  import opened Records

  /** The session slot after the staging action ran over `queryset`. The slot
      is written inside the loop, so an empty selection writes nothing. */
  function Staged(slot: Slot, queryset: seq<Project>): (r: Slot)
    ensures queryset == [] ==> r == slot
    ensures queryset != [] ==> r.Some? && |r.value| == |queryset|
    ensures queryset != [] ==> forall i :: 0 <= i < |queryset| ==> r.value[i] == queryset[i].id
  {
    if queryset == [] then slot else Some(Ids(queryset))
  }

  /** `ProjectAdmin.create_list`: collect the selected keys in queryset order,
      storing the collected list in the session after each one. The rendered
      confirmation page is not modelled. */
  method CreateList(site: Site, queryset: seq<Project>)
    modifies site
    ensures site.session == Staged(old(site.session), queryset)
    ensures site.lists == old(site.lists) && site.messages == old(site.messages)
  {
    var data: seq<ProjectId> := [];
    for i := 0 to |queryset|
      invariant data == Ids(queryset[..i])
      invariant site.session == if i == 0 then old(site.session) else Some(data)
      invariant site.lists == old(site.lists) && site.messages == old(site.messages)
    {
      data := data + [queryset[i].id];
      site.session := Some(data);
    }
    assert queryset[..|queryset|] == queryset;
  }

  /** The audit columns every admin-managed model carries. */
  datatype Audit = Audit(createdBy: UserId, updatedBy: UserId)

  /** The stamping rule of `save_model`: a new object gets the acting user as
      creator and updater, a changed one only as updater. */
  function Stamp(a: Audit, user: UserId, change: bool): (r: Audit)
    ensures r.updatedBy == user
    ensures r.createdBy == if change then a.createdBy else user
  {
    if change then a.(updatedBy := user) else Audit(user, user)
  }

  /** A stored row: its audit columns and its other attribute values. */
  datatype Row = Row(audit: Audit, attributes: map<string, string>)

  /** An instance of Client, List or Project as the admin form hands it to
      `save_model`: audit columns, other attributes, and the row last saved.
      It stands for any of the three models and is separate from the List
      table of `Records.Site`, which the list workflow fills. */
  class AuditedObject {
    var createdBy: UserId
    var updatedBy: UserId
    var attributes: map<string, string>
    var stored: Option<Row>

    function AuditFields(): Audit
      reads this
    {
      Audit(createdBy, updatedBy)
    }

    /** A new, unsaved instance: both audit columns take their default user. */
    constructor (attributes: map<string, string>)
      ensures AuditFields() == Audit(DefaultUser, DefaultUser)
      ensures this.attributes == attributes && stored == None
    {
      createdBy, updatedBy := DefaultUser, DefaultUser;
      this.attributes := attributes;
      stored := None;
    }

    /** `save_model(request, obj, form, change)` followed by `obj.save()`. */
    method SaveModel(user: UserId, change: bool)
      requires change ==> stored.Some?
      modifies this
      ensures AuditFields() == Stamp(old(AuditFields()), user, change)
      ensures updatedBy == user
      ensures createdBy == if change then old(createdBy) else user
      ensures attributes == old(attributes)
      ensures stored == Some(Row(AuditFields(), attributes))
    {
      if !change {
        createdBy := user;
        updatedBy := user;
      } else {
        updatedBy := user;
      }
      stored := Some(Row(Audit(createdBy, updatedBy), attributes));
    }
  }

  /** The audit columns after a sequence of change-saves by `editors`, in order. */
  function Edited(a: Audit, editors: seq<UserId>): Audit
    decreases |editors|
  {
    if editors == [] then a else Edited(Stamp(a, editors[0], true), editors[1..])
  }

  /** Once an object is created, the creator survives every later change, and
      the updater is always the user of the most recent save. */
  lemma {:induction false} CreatorSurvivesEdits(a: Audit, creator: UserId, editors: seq<UserId>)
    ensures Edited(Stamp(a, creator, false), editors)
            == Audit(creator, if editors == [] then creator else editors[|editors| - 1])
    decreases |editors|
  {
    if editors != [] {
      var rest := editors[1..];
      if rest == [] {
      } else {
        CreatorSurvivesEdits(a, creator, rest);
        EditedFrom(Stamp(a, creator, false), editors[0], rest);
      }
    }
  }

  /** Change-saves never look at the previous updater. */
  lemma {:induction false} EditedFrom(a: Audit, first: UserId, editors: seq<UserId>)
    requires editors != []
    ensures Edited(Stamp(a, first, true), editors) == Edited(a, editors)
    decreases |editors|
  {
    if editors[1..] != [] {
      EditedFrom(Stamp(a, editors[0], true), first, editors[1..]);
    }
  }

  /** Saving twice in a row as the same user changes nothing further. */
  lemma StampIdempotent(a: Audit, user: UserId, change: bool)
    ensures Stamp(Stamp(a, user, change), user, change) == Stamp(a, user, change)
  {
  }

  /** `ExportExcelMixin.export_as_excel`: a header row of the model's field
      names, then one row per queryset object holding its value for each field,
      in order. Cells are the objects' values as the CSV writer receives them. */
  method ExportAsExcel(fieldNames: seq<string>, queryset: seq<map<string, string>>)
    returns (rows: seq<seq<string>>)
    requires forall k, j :: 0 <= k < |queryset| && 0 <= j < |fieldNames| ==> fieldNames[j] in queryset[k]
    ensures |rows| == |queryset| + 1
    ensures rows[0] == fieldNames
    ensures forall k :: 1 <= k < |rows| ==> |rows[k]| == |fieldNames|
    ensures forall k, j :: 1 <= k < |rows| && 0 <= j < |fieldNames| ==>
              rows[k][j] == queryset[k - 1][fieldNames[j]]
  {
    rows := [fieldNames];
    for k := 0 to |queryset|
      invariant |rows| == k + 1 && rows[0] == fieldNames
      invariant forall m :: 1 <= m < |rows| ==> |rows[m]| == |fieldNames|
      invariant forall m, j :: 1 <= m < |rows| && 0 <= j < |fieldNames| ==>
                  rows[m][j] == queryset[m - 1][fieldNames[j]]
    {
      var obj := queryset[k];
      var row := seq(|fieldNames|, j requires 0 <= j < |fieldNames| => obj[fieldNames[j]]);
      rows := rows + [row];
    }
  }
}
