/** The remote marketing platform, seen only through the calls the SDK makes to it.
    Its behaviour is not modelled: a platform is any function from the calls made so far
    and the current call to a reply, so every property proved over it holds whatever the
    platform answers. */
module Remote {
  import opened Results

  /** What an SDK call throws: the HTTP status, the problem title and detail the platform
      reported, the error message, and the text of the HTTP response when there was one.
      A JavaScript error raised inside the adapter has no status and no response. */
  datatype RemoteError = RemoteError(
    status: Option<int>,
    title: Option<string>,
    detail: Option<string>,
    message: string,
    responseText: Option<string>)

  /** The JSON body of a successful reply, reduced to the properties the services read:
      the tags of `merge_fields`, the `members` array, and the names in `tags`.
      Any of them may be absent from a given reply. */
  datatype Body = Body(
    mergeFieldTags: Option<seq<string>>,
    members: Option<seq<Body>>,
    tagNames: Option<seq<string>>)

  /** A call either resolves with a body or throws. */
  type Reply = Result<Body, RemoteError>

  /** A merge-field definition sent when provisioning the list's schema. */
  datatype MergeFieldSpec = MergeFieldSpec(tag: string, name: string, kind: string)

  /** The member record sent when adding a subscriber. */
  datatype NewMember = NewMember(
    emailAddress: string,
    status: string,
    mergeFields: map<string, string>,
    tags: seq<string>)

  /** The SDK calls the adapter makes, with their arguments. */
  datatype Call =
    | Ping
    | GetListMergeFields(listId: string)
    | AddListMergeField(listId: string, field: MergeFieldSpec)
    | AddListMember(listId: string, member: NewMember)
    | UpdateListMember(listId: string, subscriberHash: string, mergeFields: map<string, string>, tags: seq<string>)
    | GetListMember(listId: string, subscriberHash: string)
    | GetListMembersInfo(listId: string)
    | GetListMemberTags(listId: string, subscriberHash: string)

  /** The platform as the process sees it: the calls sent so far, answered in order. */
  class Platform {
    const answer: (seq<Call>, Call) -> Reply
    var log: seq<Call>

    constructor (answer: (seq<Call>, Call) -> Reply)
      ensures this.answer == answer && log == []
    {
      this.answer := answer;
      log := [];
    }

    /** Sends one call and waits for its reply. */
    method Send(c: Call) returns (reply: Reply)
      modifies this
      ensures log == old(log) + [c]
      ensures reply == answer(old(log), c)
    {
      reply := answer(log, c);
      log := log + [c];
    }
  }
}
