/** `create_custom_list` in project_management/views.py: on a valid POST it
    creates and saves a List named by the form, stamped with the acting user,
    then adds every project key staged in the session slot to the List while
    counting, queues a confirmation message and redirects to the List admin. */
module Views {
  import opened Records
  import opened Decimal

  /** Where a successful submission redirects. */
  const ListChangelistUrl: string := "/admin/project_management/list/"

  const MessageHead: string := "Successfully added "
  const MessageMiddle: string := " projects to list "

  /** A request to the view: its HTTP method, the acting user, the submitted
      `name`, and whether the List form accepted the submission. */
  datatype Request = Request(httpMethod: string, user: UserId, name: string, formIsValid: bool)

  /** What the view hands back. `NoResponse` is the `None` a non-POST request
      or a rejected form falls through to; `NotIterable` is the error of
      iterating a missing session slot. */
  datatype Response = Redirect(location: string) | NoResponse | NotIterable

  predicate IsValidPost(req: Request) {
    req.httpMethod == "POST" && req.formIsValid
  }

  /** The confirmation text, with the count written in decimal: it starts with
      the fixed head followed by a digit, holds at least one character besides
      its fixed parts and the List's name, and ends with a full stop. */
  function AddedMessage(count: nat, name: string): (m: string)
    ensures |m| >= |MessageHead| + 1 + |MessageMiddle| + |name| + 1
    ensures m[|m| - 1] == '.'
    ensures MessageHead <= m && IsDigit(m[|MessageHead|])
  {
    MessageHead + NatToDecimal(count) + MessageMiddle + name + "."
  }

  /** The state and response after one request to the view. Whatever the
      request, the slot is only read, earlier Lists and messages are kept, and
      at most one List and one message are appended: a List exactly on a valid
      POST, a message exactly when the view redirects. */
  function Submit(s: SiteState, req: Request): (r: (SiteState, Response))
    ensures r.0.session == s.session
    ensures |r.0.lists| == |s.lists| + (if IsValidPost(req) then 1 else 0)
    ensures r.0.lists[..|s.lists|] == s.lists
    ensures |r.0.messages| == |s.messages| + (if r.1.Redirect? then 1 else 0)
    ensures r.0.messages[..|s.messages|] == s.messages
    ensures r.1 == NoResponse <==> !IsValidPost(req)
  {
    if !IsValidPost(req) then (s, NoResponse)
    else
      var saved := s.lists + [ListRecord(req.name, req.user, req.user, {})];
      match s.session
      case None => (s.(lists := saved), NotIterable)
      case Some(staged) =>
        (s.(lists := s.lists + [ListRecord(req.name, req.user, req.user, Members(staged))],
            messages := s.messages + [AddedMessage(|staged|, req.name)]),
         Redirect(ListChangelistUrl))
  }

  method CreateCustomList(site: Site, req: Request) returns (resp: Response)
    modifies site
    ensures (site.State(), resp) == Submit(old(site.State()), req)
  {
    if req.httpMethod == "POST" {
      if req.formIsValid {
        var projectList := ListRecord(req.name, req.user, req.user, {});
        site.lists := site.lists + [projectList];
        var at := |site.lists| - 1;
        match site.session {
          case None =>
            return NotIterable;
          case Some(staged) =>
            var count := 0;
            for i := 0 to |staged|
              invariant count == i
              invariant site.lists == old(site.lists) + [projectList.(projects := Members(staged[..i]))]
              invariant site.session == old(site.session) && site.messages == old(site.messages)
            {
              assert staged[..i + 1] == staged[..i] + [staged[i]];
              assert Members(staged[..i + 1]) == Members(staged[..i]) + {staged[i]};
              site.lists := site.lists[at := site.lists[at].(projects := site.lists[at].projects + {staged[i]})];
              count := count + 1;
            }
            assert staged[..|staged|] == staged;
            site.messages := site.messages + [AddedMessage(count, site.lists[at].name)];
            return Redirect(ListChangelistUrl);
        }
      }
    }
    return NoResponse;
  }

  /** A valid POST adds exactly one List, after the existing ones: named as
      submitted, created and updated by the acting user, holding exactly the
      staged keys, with a message counting them; the session slot is only
      read. With no staged slot the List is still stored, empty, and the
      request fails without a message. */
  lemma ValidPostAddsOneList(s: SiteState, req: Request)
    requires IsValidPost(req)
    ensures var (t, resp) := Submit(s, req);
      && |t.lists| == |s.lists| + 1
      && t.lists[..|s.lists|] == s.lists
      && t.lists[|s.lists|].name == req.name
      && t.lists[|s.lists|].createdBy == req.user
      && t.lists[|s.lists|].updatedBy == req.user
      && t.session == s.session
      && (s.session.Some? ==>
            && (forall p :: p in t.lists[|s.lists|].projects <==> p in s.session.value)
            && t.messages == s.messages + [AddedMessage(|s.session.value|, req.name)]
            && resp == Redirect(ListChangelistUrl))
      && (s.session.None? ==>
            && t.lists[|s.lists|].projects == {}
            && t.messages == s.messages
            && resp == NotIterable)
  {
  }

  /** A non-POST request or a rejected form changes nothing and queues no message. */
  lemma RejectedRequestChangesNothing(s: SiteState, req: Request)
    requires !IsValidPost(req)
    ensures Submit(s, req) == (s, NoResponse)
  {
  }

  /** The message reads back: the fixed head, the count in decimal, the fixed
      middle, then the List's name and a full stop. */
  lemma AddedMessageReadsBack(count: nat, name: string)
    ensures var m := AddedMessage(count, name);
      var digits := NatToDecimal(count);
      && m[..|MessageHead|] == MessageHead
      && AllDigits(m[|MessageHead|..|MessageHead| + |digits|])
      && DecimalValue(m[|MessageHead|..|MessageHead| + |digits|]) == count
      && m[|MessageHead| + |digits|..|m| - |name| - 1] == MessageMiddle
      && m[|m| - |name| - 1..] == name + "."
  {
    var m := AddedMessage(count, name);
    var digits := NatToDecimal(count);
    assert m == MessageHead + digits + MessageMiddle + name + ".";
    assert m[|MessageHead|..|MessageHead| + |digits|] == digits;
    assert m == (MessageHead + digits + MessageMiddle) + (name + ".");
    DecimalRoundTrip(count);
  }

  /** Different counts give different messages for the same List name. */
  lemma AddedMessageDeterminesCount(c1: nat, c2: nat, name: string)
    requires AddedMessage(c1, name) == AddedMessage(c2, name)
    ensures c1 == c2
  {
    AddedMessageReadsBack(c1, name);
    AddedMessageReadsBack(c2, name);
    var m := AddedMessage(c1, name);
    var d1, d2 := NatToDecimal(c1), NatToDecimal(c2);
    assert |m| == |MessageHead| + |d1| + |MessageMiddle| + |name| + 1;
    assert |AddedMessage(c2, name)| == |MessageHead| + |d2| + |MessageMiddle| + |name| + 1;
  }
}
