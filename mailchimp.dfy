/** The adapter to the marketing platform (src/services/mailchimp.service.ts): configuration
    check, merge-field provisioning, the first/last name split, the subscriber hash, and the
    calls with their error classification. */
module Mailchimp {
  import opened Results
  import opened Remote
  import Text

  // ---------------------------------------------------------------------------------------
  // Configuration

  /** The three settings the adapter needs. */
  datatype Config = Config(apiKey: string, server: string, listId: string)

  const ConfigMissing := "Mailchimp configuration is missing"

  /** Reads the API key, the server prefix and the audience id; all three must be set
      and non-empty, otherwise construction fails. */
  function LoadConfig(apiKey: Option<string>, server: Option<string>, audienceId: Option<string>): (r: Result<Config, string>)
    ensures r.Success? <==> Truthy(apiKey) && Truthy(server) && Truthy(audienceId)
    ensures r.Success? ==> r.value == Config(apiKey.value, server.value, audienceId.value)
    ensures r.Failure? ==> r.error == ConfigMissing
  {
    if !Truthy(apiKey) || !Truthy(server) || !Truthy(audienceId) then Failure(ConfigMissing)
    else Success(Config(apiKey.value, server.value, audienceId.value))
  }

  // ---------------------------------------------------------------------------------------
  // Names and hashes

  /** FNAME: the name up to its first space (`name.split(' ')[0]`). */
  function FirstName(name: string): string {
    Text.Split(name, ' ')[0]
  }

  /** LNAME: the remaining pieces joined back with spaces (`name.split(' ').slice(1).join(' ')`). */
  function LastName(name: string): string {
    Text.Join(Text.Split(name, ' ')[1..], " ")
  }

  /** FNAME is the text before the first space and LNAME the text after it; without a space
      FNAME is the whole name and LNAME is empty; with one, the two put back together with a
      space give the name again. */
  lemma {:induction false} NameSplit(name: string)
    ensures ' ' !in FirstName(name)
    ensures ' ' !in name ==> FirstName(name) == name && LastName(name) == ""
    ensures ' ' in name ==>
      var i := Text.IndexOf(name, ' ');
      FirstName(name) == name[..i] && LastName(name) == name[i + 1..]
    ensures ' ' in name ==> FirstName(name) + " " + LastName(name) == name
  {
    if ' ' in name {
      var i := Text.IndexOf(name, ' ');
      assert Text.Split(name, ' ')[1..] == Text.Split(name[i + 1..], ' ');
      Text.JoinSplit(name[i + 1..], ' ');
      assert " " == [' '];
      assert name == name[..i] + " " + name[i + 1..];
    }
  }

  /** The member's resource id: the digest of the lower-cased email (MD5 in hexadecimal,
      supplied as `md5Hex`). */
  function SubscriberHash(md5Hex: string -> string, email: string): string {
    md5Hex(Text.ToLower(email))
  }

  /** Emails that differ only in the case of their letters address the same member. */
  lemma HashIgnoresCase(md5Hex: string -> string, a: string, b: string)
    requires Text.EqualIgnoringCase(a, b)
    ensures SubscriberHash(md5Hex, a) == SubscriberHash(md5Hex, b)
  {
    Text.ToLowerIdentifiesCase(a, b);
  }

  ghost predicate Injective(f: string -> string) {
    forall x, y :: f(x) == f(y) ==> x == y
  }

  /** With a collision-free digest, emails that differ other than in case address different
      members: the hash depends on the lower-cased email and on nothing less. */
  lemma HashSeparatesOtherEmails(md5Hex: string -> string, a: string, b: string)
    requires Injective(md5Hex)
    requires !Text.EqualIgnoringCase(a, b)
    ensures SubscriberHash(md5Hex, a) != SubscriberHash(md5Hex, b)
  {
    Text.ToLowerIdentifiesCase(a, b);
  }

  lemma HashExample(md5Hex: string -> string)
    ensures SubscriberHash(md5Hex, "Foo@Bar.com") == SubscriberHash(md5Hex, "foo@bar.com")
  {
    HashIgnoresCase(md5Hex, "Foo@Bar.com", "foo@bar.com");
  }

  // ---------------------------------------------------------------------------------------
  // Merge-field provisioning

  /** The fields an abandoned-cart update needs, in the order they are provisioned. */
  const RequiredFields: seq<MergeFieldSpec> := [
    MergeFieldSpec("CARTID", "Cart ID", "text"),
    MergeFieldSpec("CARTITEMS", "Cart Items", "text"),
    MergeFieldSpec("TOTALPRICE", "Total Price", "number"),
    MergeFieldSpec("ABNDNTIME", "Abandonment Time", "text"),
    MergeFieldSpec("RETURNURL", "Return URL", "text")
  ]

  /** Each required field has its own tag, so provisioning attempts each tag at most once;
      TOTALPRICE is the one numeric field. */
  lemma RequiredFieldsSchema()
    ensures |RequiredFields| == 5
    ensures forall i, j :: 0 <= i < j < |RequiredFields| ==> RequiredFields[i].tag != RequiredFields[j].tag
    ensures forall f :: f in RequiredFields ==> (f.kind == "number" <==> f.tag == "TOTALPRICE")
  {
  }

  /** The required fields whose tag the list does not have yet, in their listed order. */
  function MissingFields(required: seq<MergeFieldSpec>, existing: seq<string>): (r: seq<MergeFieldSpec>)
    ensures |r| <= |required|
    ensures forall f :: f in r <==> f in required && f.tag !in existing
  {
    if required == [] then []
    else (if required[0].tag in existing then [] else [required[0]]) + MissingFields(required[1..], existing)
  }

  /** The selection keeps the listed order: it distributes over concatenation. */
  lemma {:induction false} MissingFieldsAppend(a: seq<MergeFieldSpec>, b: seq<MergeFieldSpec>, existing: seq<string>)
    ensures MissingFields(a + b, existing) == MissingFields(a, existing) + MissingFields(b, existing)
  {
    if a == [] {
      assert a + b == b;
    } else {
      assert (a + b)[0] == a[0];
      assert (a + b)[1..] == a[1..] + b;
      MissingFieldsAppend(a[1..], b, existing);
    }
  }

  /** How one attempt to add a merge field ends. */
  datatype FieldOutcome =
    | Added
    | AlreadyExisted  // the platform says the field exists: counted as done
    | Failed          // any other failure: logged, the next field is tried
    | Aborted         // the failure handler itself throws: provisioning stops

  /** Classifies the reply to an add: a 400 "Invalid Resource" whose detail mentions
      "already exists" is success; when such a reply has no detail at all, reading it
      throws inside the handler and ends the whole provisioning run. */
  function AddFieldOutcome(reply: Reply): FieldOutcome {
    match reply
    case Success(_) => Added
    case Failure(e) =>
      if e.status == Some(400) && e.title == Some("Invalid Resource") then
        match e.detail
        case None => Aborted
        case Some(d) => if Text.Contains(d, "already exists") then AlreadyExisted else Failed
      else Failed
  }

  /** A 400 "Invalid Resource" whose detail mentions "already exists" anywhere counts as
      the field being there. */
  lemma AlreadyExistsIsSwallowed(before: string, after: string, message: string, response: Option<string>)
    ensures AddFieldOutcome(Failure(RemoteError(Some(400), Some("Invalid Resource"), Some(before + "already exists" + after), message, response)))
         == AlreadyExisted
  {
    Text.ContainsInfix(before, "already exists", after);
  }

  /** Any other failure is logged and provisioning moves on, except a 400 "Invalid Resource"
      without detail, which stops it. */
  lemma OtherFailuresAreNotSwallowed(e: RemoteError)
    requires e.status != Some(400) || e.title != Some("Invalid Resource")
          || (e.detail.Some? && !Text.Contains(e.detail.value, "already exists"))
    ensures AddFieldOutcome(Failure(e)) == Failed
  {
  }

  /** The failure whose classification throws: a 400 "Invalid Resource" without detail. */
  predicate AbortsProvisioning(reply: Reply) {
    reply.Failure? && reply.error.status == Some(400) && reply.error.title == Some("Invalid Resource") && reply.error.detail.None?
  }

  lemma AbortsProvisioningIsAborted(reply: Reply)
    ensures AbortsProvisioning(reply) <==> AddFieldOutcome(reply) == Aborted
  {
  }

  /** The add calls for some fields, one per field, in order. */
  function AddFieldCalls(listId: string, fields: seq<MergeFieldSpec>): (calls: seq<Call>)
    ensures |calls| == |fields|
    ensures forall i :: 0 <= i < |fields| ==> calls[i] == AddListMergeField(listId, fields[i])
  {
    if fields == [] then [] else [AddListMergeField(listId, fields[0])] + AddFieldCalls(listId, fields[1..])
  }

  /** The add calls the provisioning loop sends, starting after `log`, for `fields` given the
      tags the list already has. */
  function AddAttempts(listId: string, answer: (seq<Call>, Call) -> Reply, log: seq<Call>,
                       fields: seq<MergeFieldSpec>, existing: seq<string>): seq<Call>
    decreases |fields|
  {
    if fields == [] then []
    else if fields[0].tag in existing then AddAttempts(listId, answer, log, fields[1..], existing)
    else
      var c := AddListMergeField(listId, fields[0]);
      if AbortsProvisioning(answer(log, c)) then [c]
      else [c] + AddAttempts(listId, answer, log + [c], fields[1..], existing)
  }

  /** One turn of the provisioning loop: skip a present field, or attempt it and stop only
      when its failure cannot be classified. */
  lemma AddAttemptsStep(listId: string, answer: (seq<Call>, Call) -> Reply, log: seq<Call>,
                        fields: seq<MergeFieldSpec>, existing: seq<string>)
    requires fields != []
    ensures fields[0].tag in existing ==>
      AddAttempts(listId, answer, log, fields, existing) == AddAttempts(listId, answer, log, fields[1..], existing)
    ensures fields[0].tag !in existing ==>
      var c := AddListMergeField(listId, fields[0]);
      AddAttempts(listId, answer, log, fields, existing)
        == if AbortsProvisioning(answer(log, c)) then [c]
           else [c] + AddAttempts(listId, answer, log + [c], fields[1..], existing)
  {
  }

  /** Provisioning attempts exactly the missing fields, in their listed order, whatever the
      platform answers; it stops short of the end only right after an attempt whose failure
      could not be classified. */
  lemma {:induction false} AddAttemptsFollowMissing(listId: string, answer: (seq<Call>, Call) -> Reply, log: seq<Call>,
                                                    fields: seq<MergeFieldSpec>, existing: seq<string>)
    ensures FollowsMissing(listId, answer, log, AddAttempts(listId, answer, log, fields, existing), MissingFields(fields, existing))
    decreases |fields|
  {
    if fields != [] {
      var more := MissingFields(fields[1..], existing);
      AddAttemptsStep(listId, answer, log, fields, existing);
      if fields[0].tag in existing {
        assert MissingFields(fields, existing) == more;
        AddAttemptsFollowMissing(listId, answer, log, fields[1..], existing);
      } else {
        var c := AddListMergeField(listId, fields[0]);
        assert MissingFields(fields, existing) == [fields[0]] + more;
        if AbortsProvisioning(answer(log, c)) {
          var calls := [c];
          assert AddAttempts(listId, answer, log, fields, existing) == calls;
          assert ([fields[0]] + more)[..1] == [fields[0]];
          assert AddFieldCalls(listId, [fields[0]]) == calls;
          assert log + calls[..0] == log && calls[0] == c;
        } else {
          AddAttemptsFollowMissing(listId, answer, log + [c], fields[1..], existing);
          FollowsMissingCons(listId, answer, log, fields[0], AddAttempts(listId, answer, log + [c], fields[1..], existing), more);
        }
      }
    }
  }

  /** `calls` are the add calls for a prefix of `missing`; none but the last has a reply
      that aborts provisioning, and they fall short only right after one that does. */
  ghost predicate FollowsMissing(listId: string, answer: (seq<Call>, Call) -> Reply, log: seq<Call>,
                                 calls: seq<Call>, missing: seq<MergeFieldSpec>) {
    && |calls| <= |missing|
    && calls == AddFieldCalls(listId, missing[..|calls|])
    && (|calls| < |missing| ==>
          |calls| > 0 && AbortsProvisioning(answer(log + calls[..|calls| - 1], calls[|calls| - 1])))
    && NoEarlyAbort(answer, log, calls)
  }

  /** No call but the last got a reply that aborts provisioning. */
  ghost predicate NoEarlyAbort(answer: (seq<Call>, Call) -> Reply, log: seq<Call>, calls: seq<Call>) {
    forall k :: 0 <= k < |calls| - 1 ==> !AbortsProvisioning(answer(log + calls[..k], calls[k]))
  }

  lemma NoEarlyAbortCons(answer: (seq<Call>, Call) -> Reply, log: seq<Call>, c: Call, rest: seq<Call>)
    requires NoEarlyAbort(answer, log + [c], rest)
    requires !AbortsProvisioning(answer(log, c))
    ensures NoEarlyAbort(answer, log, [c] + rest)
  {
    var calls := [c] + rest;
    forall k | 0 <= k < |calls| - 1
      ensures !AbortsProvisioning(answer(log + calls[..k], calls[k]))
    {
      if k > 0 {
        assert log + calls[..k] == (log + [c]) + rest[..k - 1];
        assert calls[k] == rest[k - 1];
      } else {
        assert log + calls[..k] == log;
      }
    }
  }

  lemma FollowsMissingCons(listId: string, answer: (seq<Call>, Call) -> Reply, log: seq<Call>,
                           f: MergeFieldSpec, rest: seq<Call>, more: seq<MergeFieldSpec>)
    requires FollowsMissing(listId, answer, log + [AddListMergeField(listId, f)], rest, more)
    requires !AbortsProvisioning(answer(log, AddListMergeField(listId, f)))
    ensures FollowsMissing(listId, answer, log, [AddListMergeField(listId, f)] + rest, [f] + more)
  {
    var c := AddListMergeField(listId, f);
    var calls := [c] + rest;
    var missing := [f] + more;
    assert |calls| <= |missing|;
    assert calls == AddFieldCalls(listId, missing[..|calls|]) by {
      assert missing[..|calls|] == [f] + more[..|rest|];
      assert AddFieldCalls(listId, [f] + more[..|rest|]) == [c] + AddFieldCalls(listId, more[..|rest|]);
    }
    if |calls| < |missing| {
      assert AbortsProvisioning(answer(log + calls[..|calls| - 1], calls[|calls| - 1])) by {
        assert |rest| > 0;
        assert log + calls[..|calls| - 1] == (log + [c]) + rest[..|rest| - 1];
        assert calls[|calls| - 1] == rest[|rest| - 1];
      }
    }
    NoEarlyAbortCons(answer, log, c, rest);
  }

  /** When no add-field reply goes unclassified, every missing field is attempted. */
  lemma AddAttemptsComplete(listId: string, answer: (seq<Call>, Call) -> Reply, log: seq<Call>,
                            fields: seq<MergeFieldSpec>, existing: seq<string>)
    requires forall h, f :: !AbortsProvisioning(answer(h, AddListMergeField(listId, f)))
    ensures AddAttempts(listId, answer, log, fields, existing) == AddFieldCalls(listId, MissingFields(fields, existing))
  {
    AddAttemptsFollowMissing(listId, answer, log, fields, existing);
    var missing := MissingFields(fields, existing);
    assert missing[..|missing|] == missing;
  }

  /** Everything `ensureMergeFieldsExist` sends: the schema fetch, then, if it returned a
      field list, the add attempts. A failed fetch, or a reply without `merge_fields`, is
      logged and ends the run. */
  function ProvisioningCalls(listId: string, required: seq<MergeFieldSpec>, answer: (seq<Call>, Call) -> Reply, log: seq<Call>): seq<Call> {
    var fetch := GetListMergeFields(listId);
    [fetch] +
      match answer(log, fetch)
      case Failure(_) => []
      case Success(body) =>
        match body.mergeFieldTags
        case None => []
        case Some(existing) => AddAttempts(listId, answer, log + [fetch], required, existing)
  }

  // ---------------------------------------------------------------------------------------
  // Reading replies

  /** The error JavaScript raises when a reply lacks the array the adapter maps over. */
  const MapOfUndefined := RemoteError(None, None, None, "Cannot read properties of undefined (reading 'map')", None)

  /** `getSubscriber`: the member, none on a 404, the error otherwise. */
  function SubscriberLookup(reply: Reply): Result<Option<Body>, RemoteError> {
    match reply
    case Success(b) => Success(Some(b))
    case Failure(e) => if e.status == Some(404) then Success(None) else Failure(e)
  }

  /** A 404 is the one failure normalised to "no subscriber"; every other failure is
      rethrown unchanged, and a found member is returned as received. */
  lemma SubscriberLookupNormalizes404(reply: Reply)
    ensures SubscriberLookup(reply) == Success(None) <==> reply.Failure? && reply.error.status == Some(404)
    ensures SubscriberLookup(reply).Failure? <==> reply.Failure? && reply.error.status != Some(404)
    ensures SubscriberLookup(reply).Failure? ==> SubscriberLookup(reply).error == reply.error
    ensures reply.Success? ==> SubscriberLookup(reply) == Success(Some(reply.value))
  {
  }

  /** `getMemberTags`: the tag names, or the error (a reply without `tags` throws). */
  function TagNamesOf(reply: Reply): Result<seq<string>, RemoteError> {
    match reply
    case Failure(e) => Failure(e)
    case Success(b) => if b.tagNames.Some? then Success(b.tagNames.value) else Failure(MapOfUndefined)
  }

  /** `getListMembers`: the `members` property (absent if the reply has none), or the error. */
  function MembersOf(reply: Reply): Result<Option<seq<Body>>, RemoteError> {
    match reply
    case Failure(e) => Failure(e)
    case Success(b) => Success(b.members)
  }

  // ---------------------------------------------------------------------------------------
  // The adapter

  class MailchimpService {
    const config: Config
    const platform: Platform
    const md5Hex: string -> string
    /** The merge fields provisioning creates: always `RequiredFields`. */
    const requiredFields: seq<MergeFieldSpec>

    constructor (config: Config, platform: Platform, md5Hex: string -> string)
      ensures this.config == config && this.platform == platform && this.md5Hex == md5Hex
      ensures requiredFields == RequiredFields
    {
      this.config := config;
      this.platform := platform;
      this.md5Hex := md5Hex;
      requiredFields := RequiredFields;
    }

    /** Construction from the process settings: fails unless all three are set. */
    static method Create(apiKey: Option<string>, server: Option<string>, audienceId: Option<string>,
                         platform: Platform, md5Hex: string -> string)
      returns (r: Result<MailchimpService, string>)
      ensures r.Success? <==> Truthy(apiKey) && Truthy(server) && Truthy(audienceId)
      ensures r.Failure? ==> r.error == ConfigMissing
      ensures r.Success? ==> fresh(r.value) && r.value.config == LoadConfig(apiKey, server, audienceId).value
      ensures r.Success? ==> r.value.platform == platform && r.value.md5Hex == md5Hex
    {
      var c := LoadConfig(apiKey, server, audienceId);
      if c.Failure? {
        return Failure(c.error);
      }
      var s := new MailchimpService(c.value, platform, md5Hex);
      return Success(s);
    }

    /** The call `addToList` sends: subscribed, with FNAME/LNAME split from the name. */
    function AddMemberCall(email: string, name: string, tags: seq<string>): Call {
      AddListMember(config.listId, NewMember(email, "subscribed", map["FNAME" := FirstName(name), "LNAME" := LastName(name)], tags))
    }

    /** The call `updateSubscriber` sends, addressed by the subscriber hash. */
    function UpdateMemberCall(email: string, mergeFields: map<string, string>, tags: seq<string>): Call {
      UpdateListMember(config.listId, SubscriberHash(md5Hex, email), mergeFields, tags)
    }

    function GetMemberCall(email: string): Call {
      GetListMember(config.listId, SubscriberHash(md5Hex, email))
    }

    function GetTagsCall(email: string): Call {
      GetListMemberTags(config.listId, SubscriberHash(md5Hex, email))
    }

    /** Pings the platform; a failure is rethrown. */
    method VerifyConnection() returns (r: Result<(), RemoteError>)
      modifies platform
      ensures platform.log == old(platform.log) + [Ping]
      ensures r == match platform.answer(old(platform.log), Ping)
                   case Success(_) => Success(())
                   case Failure(e) => Failure(e)
    {
      var reply := platform.Send(Ping);
      if reply.Failure? {
        return Failure(reply.error);
      }
      return Success(());
    }

    /** Creates the required merge fields the list lacks. Never fails: every error is logged. */
    method EnsureMergeFieldsExist()
      modifies platform
      ensures platform.log == old(platform.log) + ProvisioningCalls(config.listId, requiredFields, platform.answer, old(platform.log))
    {
      ghost var log0 := platform.log;
      var fetch := GetListMergeFields(config.listId);
      var reply := platform.Send(fetch);
      if reply.Failure? || reply.value.mergeFieldTags.None? {
        assert ProvisioningCalls(config.listId, requiredFields, platform.answer, log0) == [fetch];
        return;
      }
      var existing := reply.value.mergeFieldTags.value;
      ghost var adds := AddAttempts(config.listId, platform.answer, log0 + [fetch], requiredFields, existing);
      assert ProvisioningCalls(config.listId, requiredFields, platform.answer, log0) == [fetch] + adds;
      AddMissingFields(requiredFields, existing);
    }

    /** The provisioning loop: each required field whose tag is not in `existing` is added;
        a failure is logged and the loop goes on, unless classifying it throws. */
    method AddMissingFields(required: seq<MergeFieldSpec>, existing: seq<string>)
      modifies platform
      ensures platform.log == old(platform.log) + AddAttempts(config.listId, platform.answer, old(platform.log), required, existing)
    {
      ghost var start := platform.log;
      ghost var answer := platform.answer;
      var listId := config.listId;
      ghost var rest := AddAttempts(listId, answer, start, required, existing);
      ghost var total := rest;
      assert required[0..] == required;
      var i := 0;
      while i < |required|
        invariant 0 <= i <= |required|
        invariant rest == AddAttempts(listId, answer, platform.log, required[i..], existing)
        invariant platform.log + rest == start + total
      {
        var field := required[i];
        ghost var before := platform.log;
        assert required[i..][1..] == required[i + 1..];
        AddAttemptsStep(listId, answer, before, required[i..], existing);
        if field.tag !in existing {
          var c := AddListMergeField(listId, field);
          var added := platform.Send(c);
          if AbortsProvisioning(added) {
            assert rest == [c];
            return;
          }
          rest := AddAttempts(listId, answer, before + [c], required[i + 1..], existing);
          assert before + [c] + rest == start + total;
        } else {
          rest := AddAttempts(listId, answer, before, required[i + 1..], existing);
        }
        i := i + 1;
      }
    }

    /** Start-up: verify the connection, then provision the merge fields. */
    method OnModuleInit() returns (r: Result<(), RemoteError>)
      modifies platform
      ensures var log0 := old(platform.log);
        match platform.answer(log0, Ping)
        case Failure(e) => r == Failure(e) && platform.log == log0 + [Ping]
        case Success(_) =>
          r == Success(()) && platform.log == log0 + [Ping] + ProvisioningCalls(config.listId, requiredFields, platform.answer, log0 + [Ping])
    {
      r := VerifyConnection();
      if r.Success? {
        EnsureMergeFieldsExist();
      }
    }

    /** Adds (subscribes) a member; a failure is rethrown. */
    method AddToList(email: string, name: string, tags: seq<string>) returns (r: Reply)
      modifies platform
      ensures platform.log == old(platform.log) + [AddMemberCall(email, name, tags)]
      ensures r == platform.answer(old(platform.log), AddMemberCall(email, name, tags))
    {
      r := platform.Send(AddMemberCall(email, name, tags));
    }

    /** Writes merge fields and tags on the member the email hashes to; a failure is rethrown. */
    method UpdateSubscriber(email: string, mergeFields: map<string, string>, tags: seq<string>) returns (r: Reply)
      modifies platform
      ensures platform.log == old(platform.log) + [UpdateMemberCall(email, mergeFields, tags)]
      ensures r == platform.answer(old(platform.log), UpdateMemberCall(email, mergeFields, tags))
    {
      r := platform.Send(UpdateMemberCall(email, mergeFields, tags));
    }

    /** Looks a member up; "not found" is no member, not an error. */
    method GetSubscriber(email: string) returns (r: Result<Option<Body>, RemoteError>)
      modifies platform
      ensures platform.log == old(platform.log) + [GetMemberCall(email)]
      ensures r == SubscriberLookup(platform.answer(old(platform.log), GetMemberCall(email)))
    {
      var reply := platform.Send(GetMemberCall(email));
      r := SubscriberLookup(reply);
    }

    /** Lists the audience's members; a failure is rethrown. */
    method GetListMembers() returns (r: Result<Option<seq<Body>>, RemoteError>)
      modifies platform
      ensures platform.log == old(platform.log) + [GetListMembersInfo(config.listId)]
      ensures r == MembersOf(platform.answer(old(platform.log), GetListMembersInfo(config.listId)))
    {
      var reply := platform.Send(GetListMembersInfo(config.listId));
      r := MembersOf(reply);
    }

    /** The names of the member's tags; a failure is rethrown. */
    method GetMemberTags(email: string) returns (r: Result<seq<string>, RemoteError>)
      modifies platform
      ensures platform.log == old(platform.log) + [GetTagsCall(email)]
      ensures r == TagNamesOf(platform.answer(old(platform.log), GetTagsCall(email)))
    {
      var reply := platform.Send(GetTagsCall(email));
      r := TagNamesOf(reply);
    }
  }
}
