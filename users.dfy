/** The in-memory user registry (src/modules/user/user.service.ts): users are appended
    with sequential ids, found by exact email and updated in place; every change is then
    mirrored to the marketing platform, and a remote failure never undoes the local change. */
module Users {
  import opened Results
  import opened Remote
  import opened Mailchimp

  /** What a user holds at one moment: id, name, email and the sign-up time (in ms). */
  datatype UserRecord = UserRecord(id: int, name: string, email: string, signupDate: int)

  /** The body of an update: each field may be left out. */
  datatype Patch = Patch(name: Option<string>, email: Option<string>)

  /** A stored user; the registry and the caller share it, and updates change it in place. */
  class User {
    var id: int
    var name: string
    var email: string
    var signupDate: int

    constructor (id: int, name: string, email: string, signupDate: int)
      ensures Record() == UserRecord(id, name, email, signupDate)
    {
      this.id := id;
      this.name := name;
      this.email := email;
      this.signupDate := signupDate;
    }

    function Record(): UserRecord
      reads this
    {
      UserRecord(id, name, email, signupDate)
    }

    /** Copies the given non-empty fields of `p` onto this user. */
    method Update(p: Patch)
      modifies this
      ensures Record() == ApplyPatch(old(Record()), p)
    {
      if Truthy(p.name) {
        name := p.name.value;
      }
      if Truthy(p.email) {
        email := p.email.value;
      }
    }
  }

  function RecordsOf(us: seq<User>): (rs: seq<UserRecord>)
    reads us
    ensures |rs| == |us|
  {
    seq(|us|, i requires 0 <= i < |us| reads us => us[i].Record())
  }

  // ---------------------------------------------------------------------------------------
  // The registry's contents as values

  /** The registry invariant: ids are at least 1, below the next id to assign, and strictly
      increase in list order (so no two users share an id). */
  ghost predicate IdsAscending(rs: seq<UserRecord>, nextId: int) {
    && (forall i :: 0 <= i < |rs| ==> 1 <= rs[i].id < nextId)
    && (forall i, j :: 0 <= i < j < |rs| ==> rs[i].id < rs[j].id)
  }

  /** The position of the first user whose email is exactly `email` (`users.find`). */
  function FindByEmail(rs: seq<UserRecord>, email: string): (r: Option<nat>)
    ensures r.Some? ==> r.value < |rs| && rs[r.value].email == email
    ensures r.Some? ==> forall j :: 0 <= j < r.value ==> rs[j].email != email
    ensures r.None? <==> forall j :: 0 <= j < |rs| ==> rs[j].email != email
  {
    if rs == [] then None
    else if rs[0].email == email then Some(0)
    else
      match FindByEmail(rs[1..], email)
      case None => None
      case Some(k) => Some(k + 1)
  }

  /** The user after an update: a name or email that is given and non-empty replaces the
      old one; nothing else changes. */
  function ApplyPatch(u: UserRecord, p: Patch): UserRecord {
    u.(name := if Truthy(p.name) then p.name.value else u.name,
       email := if Truthy(p.email) then p.email.value else u.email)
  }

  /** An update never touches the id or the sign-up time, and changes a field exactly when
      the update supplies a non-empty value different from the current one. */
  lemma PatchChangesOnlyGivenFields(u: UserRecord, p: Patch)
    ensures ApplyPatch(u, p).id == u.id && ApplyPatch(u, p).signupDate == u.signupDate
    ensures ApplyPatch(u, p).name != u.name <==> Truthy(p.name) && p.name.value != u.name
    ensures ApplyPatch(u, p).email != u.email <==> Truthy(p.email) && p.email.value != u.email
    ensures !Truthy(p.name) && !Truthy(p.email) ==> ApplyPatch(u, p) == u
  {
  }

  /** Registration appends a user with the next id, keeping the invariant. */
  lemma RegisterKeepsIdsAscending(rs: seq<UserRecord>, nextId: int, name: string, email: string, now: int)
    requires nextId >= 1 && IdsAscending(rs, nextId)
    ensures IdsAscending(rs + [UserRecord(nextId, name, email, now)], nextId + 1)
  {
  }

  /** Updating one user in place keeps the invariant. */
  lemma UpdateKeepsIdsAscending(rs: seq<UserRecord>, nextId: int, i: nat, p: Patch)
    requires IdsAscending(rs, nextId) && i < |rs|
    ensures IdsAscending(rs[i := ApplyPatch(rs[i], p)], nextId)
  {
  }

  /** No two users have the same id. */
  lemma IdsUnique(rs: seq<UserRecord>, nextId: int, i: nat, j: nat)
    requires IdsAscending(rs, nextId) && i < |rs| && j < |rs| && i != j
    ensures rs[i].id != rs[j].id
  {
  }

  /** Registering does not check for an existing email: two registrations with the same email
      give two users, and a later lookup finds the first. */
  lemma {:induction false} DuplicateEmailsAllowed(rs: seq<UserRecord>, nextId: int, name1: string, name2: string, email: string, t1: int, t2: int)
    requires FindByEmail(rs, email).None?
    ensures var rs' := rs + [UserRecord(nextId, name1, email, t1), UserRecord(nextId + 1, name2, email, t2)];
      FindByEmail(rs', email) == Some(|rs|)
  {
    var rs' := rs + [UserRecord(nextId, name1, email, t1), UserRecord(nextId + 1, name2, email, t2)];
    FindAfterPrefix(rs, rs'[|rs|..], email);
    assert rs + rs'[|rs|..] == rs';
  }

  /** Users appended after a prefix with no match are found at their position. */
  lemma {:induction false} FindAfterPrefix(rs: seq<UserRecord>, more: seq<UserRecord>, email: string)
    requires FindByEmail(rs, email).None?
    ensures FindByEmail(rs + more, email) == match FindByEmail(more, email) case None => None case Some(k) => Some(|rs| + k)
    decreases |rs|
  {
    var all := rs + more;
    if rs == [] {
      assert all == more;
    } else {
      assert all[0] == rs[0] && all[1..] == rs[1..] + more;
      assert FindByEmail(rs[1..], email).None? by {
        assert forall j :: 0 <= j < |rs[1..]| ==> rs[1..][j] == rs[j + 1];
      }
      FindAfterPrefix(rs[1..], more, email);
      assert all[0].email != email;
    }
  }

  // ---------------------------------------------------------------------------------------
  // Remote error reporting

  const UserNotFound := "User not found"
  const IntegrationFailed := "Mailchimp integration failed: "
  const ListMembersFailed := "Failed to get users from Mailchimp: "

  /** The message an operation fails with after a remote error: the platform's response
      text when the error carries a response, otherwise `fallback` and the error message. */
  function RemoteFailure(e: RemoteError, fallback: string): string {
    match e.responseText
    case Some(text) => "Mailchimp API error: " + text
    case None => fallback + e.message
  }

  /** FNAME, LNAME and EMAIL of a user, as sent when their member already exists. */
  function UserMergeFields(u: UserRecord): map<string, string> {
    map["FNAME" := FirstName(u.name), "LNAME" := LastName(u.name), "EMAIL" := u.email]
  }

  /** The outcome of mirroring a change to the platform: the error message, if any, and the
      calls sent. */
  datatype Sync = Sync(error: Option<string>, calls: seq<Call>)

  /** What `updateUser` does remotely after changing user `u`, which was found under
      `email`: look the member up under `email`; on a remote error stop; if the member
      exists, update its FNAME/LNAME/EMAIL (still addressed by `email`), otherwise add the
      user under their current email; both with tag "New-Customer". */
  function MirrorUpdate(m: MailchimpService, log0: seq<Call>, email: string, u: UserRecord): Sync {
    var lookup := m.GetMemberCall(email);
    match SubscriberLookup(m.platform.answer(log0, lookup))
    case Failure(e) => Sync(Some(RemoteFailure(e, IntegrationFailed)), [lookup])
    case Success(member) =>
      var write := if member.Some? then m.UpdateMemberCall(email, UserMergeFields(u), ["New-Customer"])
                   else m.AddMemberCall(u.email, u.name, ["New-Customer"]);
      match m.platform.answer(log0 + [lookup], write)
      case Success(_) => Sync(None, [lookup, write])
      case Failure(e) => Sync(Some(RemoteFailure(e, IntegrationFailed)), [lookup, write])
  }

  /** The lookup always uses the email the user was found under. A found member is updated
      at that address with FNAME/LNAME/EMAIL of the changed user; after a 404 the user is
      added under their current email; both writes carry the tag "New-Customer". Any other
      lookup failure stops before a write. The outcome is an error exactly when a call
      failed (the 404 aside). */
  lemma MirrorUpdateAddresses(m: MailchimpService, log0: seq<Call>, email: string, u: UserRecord)
    ensures var s := MirrorUpdate(m, log0, email, u);
      var lookup := GetListMember(m.config.listId, SubscriberHash(m.md5Hex, email));
      var found := m.platform.answer(log0, lookup);
      && 1 <= |s.calls| <= 2
      && s.calls[0] == lookup
      && (found.Success? ==>
            |s.calls| == 2
            && s.calls[1] == UpdateListMember(m.config.listId, SubscriberHash(m.md5Hex, email), UserMergeFields(u), ["New-Customer"]))
      && (found.Failure? && found.error.status == Some(404) ==>
            |s.calls| == 2
            && s.calls[1] == AddListMember(m.config.listId,
                 NewMember(u.email, "subscribed", map["FNAME" := FirstName(u.name), "LNAME" := LastName(u.name)], ["New-Customer"])))
      && (found.Failure? && found.error.status != Some(404) ==>
            |s.calls| == 1 && s.error == Some(RemoteFailure(found.error, IntegrationFailed)))
      && (|s.calls| == 2 ==>
            (s.error.None? <==> m.platform.answer(log0 + [lookup], s.calls[1]).Success?))
  {
  }

  // ---------------------------------------------------------------------------------------
  // The service

  class UserService {
    var users: seq<User>
    var idCounter: int
    const mailchimp: MailchimpService

    ghost predicate Valid()
      reads this, users
    {
      idCounter >= 1 && IdsAscending(Records(), idCounter)
    }

    /** The users' current values, in list order. */
    function Records(): seq<UserRecord>
      reads this, users
    {
      RecordsOf(users)
    }

    constructor (mailchimp: MailchimpService)
      ensures Valid() && users == [] && idCounter == 1 && this.mailchimp == mailchimp
    {
      users := [];
      idCounter := 1;
      this.mailchimp := mailchimp;
    }

    /** Stores a new user with the next id and the given time, then adds them to the list
        with tag "New-customer". The user stays stored when the remote call fails. */
    method RegisterUser(name: string, email: string, now: int) returns (r: Result<User, string>)
      requires Valid()
      modifies this, mailchimp.platform
      ensures Valid()
      ensures idCounter == old(idCounter) + 1
      ensures |users| == |old(users)| + 1 && users[..|old(users)|] == old(users) && fresh(users[|old(users)|])
      ensures Records() == old(Records()) + [UserRecord(old(idCounter), name, email, now)]
      ensures var call := mailchimp.AddMemberCall(email, name, ["New-customer"]);
        && mailchimp.platform.log == old(mailchimp.platform.log) + [call]
        && r == match mailchimp.platform.answer(old(mailchimp.platform.log), call)
                case Success(_) => Success(users[|old(users)|])
                case Failure(e) => Failure(RemoteFailure(e, IntegrationFailed))
    {
      var u := new User(idCounter, name, email, now);
      RegisterKeepsIdsAscending(Records(), idCounter, name, email, now);
      users := users + [u];
      idCounter := idCounter + 1;
      assert Records() == old(Records()) + [u.Record()];
      assert Valid();
      var reply := mailchimp.AddToList(email, name, ["New-customer"]);
      assert Records() == old(Records()) + [u.Record()];
      match reply {
        case Success(_) => r := Success(u);
        case Failure(e) => r := Failure(RemoteFailure(e, IntegrationFailed));
      }
    }

    /** Updates the first user whose email is exactly `email`, then mirrors the change: the
        member is looked up under `email`; if it exists its FNAME/LNAME/EMAIL are updated,
        otherwise the user is added under their current email; both with tag "New-Customer".
        A remote failure is reported, but the local change stays. */
    method UpdateUser(email: string, patch: Patch) returns (r: Result<User, string>)
      requires Valid()
      modifies users, mailchimp.platform
      ensures Valid() && users == old(users) && idCounter == old(idCounter)
      ensures FindByEmail(old(Records()), email).None? ==>
        && r == Failure(UserNotFound)
        && Records() == old(Records())
        && mailchimp.platform.log == old(mailchimp.platform.log)
      ensures FindByEmail(old(Records()), email).Some? ==>
        var i := FindByEmail(old(Records()), email).value;
        var sync := MirrorUpdate(mailchimp, old(mailchimp.platform.log), email, Records()[i]);
        && Records() == old(Records())[i := ApplyPatch(old(Records())[i], patch)]
        && mailchimp.platform.log == old(mailchimp.platform.log) + sync.calls
        && r == if sync.error.Some? then Failure(sync.error.value) else Success(users[i])
    {
      var found := FindByEmail(Records(), email);
      if found.None? {
        return Failure(UserNotFound);
      }
      var i := found.value;
      var user := users[i];
      ghost var before := Records();
      ghost var after := before[i := ApplyPatch(before[i], patch)];
      UpdateKeepsIdsAscending(before, idCounter, i, patch);
      forall j | 0 <= j < |users| && j != i
        ensures users[j] != user
      {
        IdsUnique(before, idCounter, i, j);
      }
      user.Update(patch);
      assert forall j :: 0 <= j < |users| ==> users[j].Record() == after[j];
      assert Records() == after;
      var error := MirrorToPlatform(email, user);
      assert Records() == after;
      r := if error.Some? then Failure(error.value) else Success(user);
    }

    /** The remote half of `updateUser`. */
    method MirrorToPlatform(email: string, user: User) returns (error: Option<string>)
      modifies mailchimp.platform
      ensures var sync := MirrorUpdate(mailchimp, old(mailchimp.platform.log), email, user.Record());
        mailchimp.platform.log == old(mailchimp.platform.log) + sync.calls && error == sync.error
    {
      var member := mailchimp.GetSubscriber(email);
      if member.Failure? {
        return Some(RemoteFailure(member.error, IntegrationFailed));
      }
      var reply;
      if member.value.Some? {
        reply := mailchimp.UpdateSubscriber(email, UserMergeFields(user.Record()), ["New-Customer"]);
      } else {
        reply := mailchimp.AddToList(user.email, user.name, ["New-Customer"]);
      }
      error := if reply.Success? then None else Some(RemoteFailure(reply.error, IntegrationFailed));
    }

    /** All stored users, in the order they registered (never routed). */
    method GetAllUsers() returns (us: seq<User>)
      ensures us == users
      ensures RecordsOf(us) == Records()
      ensures Valid() ==> forall i, j :: 0 <= i < j < |us| ==> us[i].id < us[j].id
    {
      us := users;
      assert forall i :: 0 <= i < |us| ==> Records()[i] == us[i].Record();
    }

    /** The members of the remote list; a remote failure is reported with its text. */
    method GetUsersFromMailchimp() returns (r: Result<Option<seq<Body>>, string>)
      modifies mailchimp.platform
      ensures var call := GetListMembersInfo(mailchimp.config.listId);
        && mailchimp.platform.log == old(mailchimp.platform.log) + [call]
        && r == match MembersOf(mailchimp.platform.answer(old(mailchimp.platform.log), call))
                case Success(ms) => Success(ms)
                case Failure(e) => Failure(RemoteFailure(e, ListMembersFailed))
    {
      var reply := mailchimp.GetListMembers();
      match reply {
        case Success(ms) => r := Success(ms);
        case Failure(e) => r := Failure(RemoteFailure(e, ListMembersFailed));
      }
    }
  }
}
