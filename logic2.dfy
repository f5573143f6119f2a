/** The records of Logic2.swift: `Creator` with its hand-written decoder, and `Post` with
    its nested `FileDetails` and `Attachment`, decoded as Swift's synthesized `Codable`
    conformance does. */
module Records {
  import opened Wrappers
  import opened JsonValues
  import opened Decimal

  /** Every field is declared optional, although a successful decode fills all but `name`. */
  datatype Creator = Creator(
    id: Option<string>,
    service: Option<string>,
    indexed: Option<string>,
    updated: Option<int>,
    name: Option<string>)

  datatype FileDetails = FileDetails(name: Option<string>, path: Option<string>)

  /** The attachment's `id` is a fresh UUID on every decode and is not part of the model. */
  datatype Attachment = Attachment(name: string, path: string)

  datatype Post = Post(
    id: Option<string>,
    user: Option<string>,
    service: Option<string>,
    title: Option<string>,
    content: Option<string>,
    embed: Option<map<string, string>>,
    sharedFile: Option<string>,
    added: Option<string>,
    published: Option<string>,
    edited: Option<string>,
    file: Option<FileDetails>,
    attachments: Option<seq<Attachment>>)

  // ---- Shape predicates: what a JSON object must look like for each field to decode ----

  predicate HasString(c: Container, key: string) {
    key in c && c[key].JString?
  }

  predicate HasInt(c: Container, key: string) {
    key in c && c[key].JNum? && FitsInt(c[key].n)
  }

  /** The string at `key` if there is one, otherwise nil. */
  function StringAt(c: Container, key: string): (s: Option<string>) {
    if HasString(c, key) then Some(c[key].s) else None
  }

  /** A key that an optional `String` property may have: absent, null or a string. */
  predicate OptionalString(c: Container, key: string) {
    key !in c || c[key].JNull? || c[key].JString?
  }

  /** What `Creator.indexed` becomes: an integer's decimal text, else a string verbatim. */
  function IndexedText(c: Container): (text: Option<string>) {
    if HasInt(c, "indexed") then Some(IntToString(c["indexed"].n))
    else if HasString(c, "indexed") then Some(c["indexed"].s)
    else None
  }

  predicate CreatorShape(j: Json) {
    && j.JObject?
    && HasString(j.fields, "id")
    && HasString(j.fields, "service")
    && HasInt(j.fields, "updated")
    && IndexedText(j.fields).Some?
  }

  /** `Creator.init(from:)`. */
  function DecodeCreator(j: Json): (r: Result<Creator, DecodeError>)
    ensures r.Success? <==> CreatorShape(j)
    ensures r.Success? ==> r.value == Creator(
      Some(j.fields["id"].s), Some(j.fields["service"].s), IndexedText(j.fields),
      Some(j.fields["updated"].n), StringAt(j.fields, "name"))
    // id, service and updated are required in that order; the first one missing or mistyped is reported
    ensures j.JObject? && !HasString(j.fields, "id") ==> r.Failure? && r.error.path == ["id"]
    ensures j.JObject? && HasString(j.fields, "id") && !HasString(j.fields, "service") ==>
      r.Failure? && r.error.path == ["service"]
    ensures j.JObject? && HasString(j.fields, "id") && HasString(j.fields, "service") && !HasInt(j.fields, "updated") ==>
      r.Failure? && r.error.path == ["updated"]
    // an unusable indexed is always a type mismatch, even when the key is missing
    ensures (&& j.JObject? && HasString(j.fields, "id") && HasString(j.fields, "service")
             && HasInt(j.fields, "updated") && IndexedText(j.fields).None?)
            ==> r == Failure(DecodeError(TypeMismatch, ["indexed"]))
  {
    var c :- KeyedContainer(j);
    var id :- Decode(c, "id", StringValue);
    var service :- Decode(c, "service", StringValue);
    var updated :- Decode(c, "updated", IntValue);
    var name := Try(Decode(c, "name", StringValue));
    var indexed :-
      match Try(Decode(c, "indexed", IntValue))
      case Some(n) => Success(IntToString(n))
      case None =>
        match Try(Decode(c, "indexed", StringValue))
        case Some(s) => Success(s)
        case None => Failure(DecodeError(TypeMismatch, ["indexed"]));
    Success(Creator(Some(id), Some(service), Some(indexed), Some(updated), name))
  }

  /** An integer `indexed` and the string holding its decimal text decode to the same Creator. */
  lemma IndexedIntMatchesString(c: Container, n: int)
    requires FitsInt(n)
    ensures DecodeCreator(JObject(c["indexed" := JNum(n)]))
         == DecodeCreator(JObject(c["indexed" := JString(IntToString(n))]))
  {
  }

  /** Two integer `indexed` values give the same text only when they are equal. */
  lemma IndexedIntsDistinct(c: Container, a: int, b: int)
    requires FitsInt(a) && FitsInt(b)
    requires DecodeCreator(JObject(c["indexed" := JNum(a)])).Success?
    ensures (DecodeCreator(JObject(c["indexed" := JNum(a)])).value.indexed
          == DecodeCreator(JObject(c["indexed" := JNum(b)])).value.indexed) <==> a == b
  {
    IntToStringInjective(a, b);
  }

  /** `name` never makes decoding fail: changing it alone cannot turn success into failure. */
  lemma NameIsLenient(c: Container, v: Json)
    requires DecodeCreator(JObject(c)).Success?
    ensures DecodeCreator(JObject(c["name" := v])).Success?
    ensures DecodeCreator(JObject(c["name" := v])).value.name == if v.JString? then Some(v.s) else None
  {
  }

  // ---- Post and its nested records ----

  predicate FileDetailsShape(v: Json) {
    v.JObject? && OptionalString(v.fields, "name") && OptionalString(v.fields, "path")
  }

  /** `Post.FileDetails`: name and path may each be absent or null. */
  function DecodeFileDetails(v: Json): (r: Result<FileDetails, DecodeError>)
    ensures r.Success? <==> FileDetailsShape(v)
    ensures r.Success? ==> r.value == FileDetails(StringAt(v.fields, "name"), StringAt(v.fields, "path"))
  {
    var c :- KeyedContainer(v);
    var name :- DecodeIfPresent(c, "name", StringValue);
    var path :- DecodeIfPresent(c, "path", StringValue);
    Success(FileDetails(name, path))
  }

  predicate AttachmentShape(v: Json) {
    v.JObject? && HasString(v.fields, "name") && HasString(v.fields, "path")
  }

  /** `Post.Attachment`: name and path are both required strings. */
  function DecodeAttachment(v: Json): (r: Result<Attachment, DecodeError>)
    ensures r.Success? <==> AttachmentShape(v)
    ensures r.Success? ==> r.value == Attachment(v.fields["name"].s, v.fields["path"].s)
  {
    var c :- KeyedContainer(v);
    var name :- Decode(c, "name", StringValue);
    var path :- Decode(c, "path", StringValue);
    Success(Attachment(name, path))
  }

  predicate EmbedShape(v: Json) {
    v.JObject? && forall k | k in v.fields :: v.fields[k].JString?
  }

  /** `[String: String]`: an object whose every value is a string. */
  function DecodeEmbed(v: Json): (r: Result<map<string, string>, DecodeError>)
    ensures r.Success? <==> EmbedShape(v)
    ensures r.Success? ==> r.value.Keys == v.fields.Keys
    ensures r.Success? ==> forall k | k in r.value :: r.value[k] == v.fields[k].s
  {
    match v
    case JObject(m) =>
      if forall k | k in m :: m[k].JString? then Success(map k | k in m :: m[k].s)
      else Failure(DecodeError(TypeMismatch, []))
    case JNull => Failure(DecodeError(ValueNotFound, []))
    case _ => Failure(DecodeError(TypeMismatch, []))
  }

  function DecodeAttachments(v: Json): (r: Result<seq<Attachment>, DecodeError>)
    ensures r.Success? <==> v.JArray? && forall i | 0 <= i < |v.items| :: AttachmentShape(v.items[i])
    ensures r.Success? ==> |r.value| == |v.items|
    ensures r.Success? ==> forall i | 0 <= i < |v.items| ::
      r.value[i] == Attachment(v.items[i].fields["name"].s, v.items[i].fields["path"].s)
  {
    var r := ArrayValue(v, DecodeAttachment);
    assert r.Success? ==> forall i | 0 <= i < |v.items| :: r.value[i] == DecodeAttachment(v.items[i]).value;
    r
  }

  /** A key holding an optional value of the given shape: absent, null, or that shape. */
  predicate OptionalShape(c: Container, key: string, shape: Json -> bool) {
    key !in c || c[key].JNull? || shape(c[key])
  }

  predicate AttachmentsShape(v: Json) {
    v.JArray? && forall i | 0 <= i < |v.items| :: AttachmentShape(v.items[i])
  }

  predicate PostShape(j: Json) {
    && j.JObject?
    && OptionalString(j.fields, "id")
    && OptionalString(j.fields, "user")
    && OptionalString(j.fields, "service")
    && OptionalString(j.fields, "title")
    && OptionalString(j.fields, "content")
    && OptionalString(j.fields, "sharedFile")
    && OptionalString(j.fields, "added")
    && OptionalString(j.fields, "published")
    && OptionalString(j.fields, "edited")
    && OptionalShape(j.fields, "embed", EmbedShape)
    && OptionalShape(j.fields, "file", FileDetailsShape)
    && OptionalShape(j.fields, "attachments", AttachmentsShape)
  }

  /** The synthesized `Post.init(from:)`: every property is optional and read with
      `decodeIfPresent`, so a missing or null key gives nil but a present value of the
      wrong type fails the whole post. */
  function DecodePost(j: Json): (r: Result<Post, DecodeError>)
    ensures r.Success? <==> PostShape(j)
    ensures r.Success? ==>
      (&& r.value.id == StringAt(j.fields, "id")
       && r.value.user == StringAt(j.fields, "user")
       && r.value.service == StringAt(j.fields, "service")
       && r.value.title == StringAt(j.fields, "title")
       && r.value.content == StringAt(j.fields, "content")
       && r.value.sharedFile == StringAt(j.fields, "sharedFile")
       && r.value.added == StringAt(j.fields, "added")
       && r.value.published == StringAt(j.fields, "published")
       && r.value.edited == StringAt(j.fields, "edited"))
    ensures r.Success? ==> (r.value.embed.Some? <==> "embed" in j.fields && j.fields["embed"].JObject?)
    ensures r.Success? && r.value.embed.Some? ==>
      && r.value.embed.value.Keys == j.fields["embed"].fields.Keys
      && forall k | k in r.value.embed.value :: r.value.embed.value[k] == j.fields["embed"].fields[k].s
    ensures r.Success? ==> (r.value.file.Some? <==> "file" in j.fields && j.fields["file"].JObject?)
    ensures r.Success? && r.value.file.Some? ==>
      r.value.file.value == FileDetails(StringAt(j.fields["file"].fields, "name"), StringAt(j.fields["file"].fields, "path"))
    ensures r.Success? ==> (r.value.attachments.Some? <==> "attachments" in j.fields && j.fields["attachments"].JArray?)
    ensures r.Success? && r.value.attachments.Some? ==> |r.value.attachments.value| == |j.fields["attachments"].items|
    ensures r.Success? && r.value.attachments.Some? ==> forall i | 0 <= i < |j.fields["attachments"].items| ::
      var item := j.fields["attachments"].items[i];
      r.value.attachments.value[i] == Attachment(item.fields["name"].s, item.fields["path"].s)
  {
    var c :- KeyedContainer(j);
    var id :- DecodeIfPresent(c, "id", StringValue);
    var user :- DecodeIfPresent(c, "user", StringValue);
    var service :- DecodeIfPresent(c, "service", StringValue);
    var title :- DecodeIfPresent(c, "title", StringValue);
    var content :- DecodeIfPresent(c, "content", StringValue);
    var embed :- DecodeIfPresent(c, "embed", DecodeEmbed);
    var sharedFile :- DecodeIfPresent(c, "sharedFile", StringValue);
    var added :- DecodeIfPresent(c, "added", StringValue);
    var published :- DecodeIfPresent(c, "published", StringValue);
    var edited :- DecodeIfPresent(c, "edited", StringValue);
    var file :- DecodeIfPresent(c, "file", DecodeFileDetails);
    var attachments :- DecodeIfPresent(c, "attachments", DecodeAttachments);
    Success(Post(id, user, service, title, content, embed, sharedFile, added, published, edited, file, attachments))
  }
}

/** `ApiService` of Logic2.swift: its endpoint URLs and the classification of a data
    task's outcome into success or failure. */
module ApiService {
  import opened Wrappers
  import opened JsonValues
  import opened Records

  const BaseURL: string := "https://coomer.su/api/v1"

  /** What a data task's completion handler receives: an optional transport error (its
      description), optional data, and the HTTP status of the response if there is one. */
  datatype TaskResult = TaskResult(error: Option<string>, data: Option<Body>, status: Option<int>)

  datatype FetchError =
    | Transport(description: string)   // the task's own error
    | NoData                           // the "No data" error built by fetch
    | Decoding(cause: DecodeError)     // JSONDecoder's error
    | BadServerResponse                // URLError(.badServerResponse), used by the page fetch

  function CreatorsURL(): (url: string)
    ensures |BaseURL| < |url| && url[..|BaseURL|] == BaseURL
    ensures forall i | 0 <= i < |url| :: url[i] != '?'
  {
    BaseURL + "/creators.txt"
  }

  function RecentPostsURL(): (url: string)
    ensures |BaseURL| < |url| && url[..|BaseURL|] == BaseURL
    ensures forall i | 0 <= i < |url| :: url[i] != '?'
  {
    BaseURL + "/posts"
  }

  /** No offset parameter is appended: the URL has a query only if the arguments bring one. */
  function CreatorPostsURL(service: string, creatorID: string): (url: string)
    ensures |BaseURL| < |url| && url[..|BaseURL|] == BaseURL
    ensures (exists i | 0 <= i < |url| :: url[i] == '?') <==>
      (exists i | 0 <= i < |service| :: service[i] == '?') || (exists i | 0 <= i < |creatorID| :: creatorID[i] == '?')
  {
    var url := BaseURL + "/" + service + "/user/" + creatorID;
    assert forall i | 0 <= i < |service| :: url[|BaseURL| + 1 + i] == service[i];
    assert forall i | 0 <= i < |creatorID| :: url[|BaseURL| + 7 + |service| + i] == creatorID[i];
    url
  }

  predicate NoSlash(s: string) {
    forall i | 0 <= i < |s| :: s[i] != '/'
  }

  /** The character just after the service name is the '/' of "/user/". */
  lemma UserSegmentAt(service: string, creatorID: string)
    ensures (service + "/user/" + creatorID)[|service|] == '/'
  {
  }

  /** When the service name has no '/', the URL determines both service and creator. */
  lemma CreatorPostsURLInjective(s1: string, id1: string, s2: string, id2: string)
    requires NoSlash(s1) && NoSlash(s2)
    requires CreatorPostsURL(s1, id1) == CreatorPostsURL(s2, id2)
    ensures s1 == s2 && id1 == id2
  {
    var r1 := s1 + "/user/" + id1;
    var r2 := s2 + "/user/" + id2;
    var b := |BaseURL| + 1;
    assert r1 == CreatorPostsURL(s1, id1)[b..];
    assert r2 == CreatorPostsURL(s2, id2)[b..];
    // a shorter service name would put the '/' of "/user/" inside the longer one
    if |s1| < |s2| {
      UserSegmentAt(s1, id1);
      assert false;
    } else if |s2| < |s1| {
      UserSegmentAt(s2, id2);
      assert false;
    }
    assert s1 == r1[..|s1|] && s2 == r2[..|s2|];
    assert id1 == r1[|s1| + 6..] && id2 == r2[|s2| + 6..];
  }

  /** The three endpoints never coincide, whatever the service and creator ID. */
  lemma EndpointsDistinct(service: string, creatorID: string)
    ensures CreatorsURL() != RecentPostsURL()
    ensures CreatorPostsURL(service, creatorID) != CreatorsURL()
    ensures CreatorPostsURL(service, creatorID) != RecentPostsURL()
  {
    var b := |BaseURL| + 1;
    var u := CreatorPostsURL(service, creatorID);
    assert u[b..] == service + "/user/" + creatorID;
    UserSegmentAt(service, creatorID);
    assert u[b + |service|] == '/';
    assert CreatorsURL()[b..] == "creators.txt";
    assert RecentPostsURL()[b..] == "posts";
    assert CreatorsURL()[b] != RecentPostsURL()[b];
  }

  /** The private `fetch`: transport error first, then missing data, then the decoding of
      the whole array. The HTTP status is never looked at. */
  function Fetch<T>(t: TaskResult, element: Json -> Result<T, DecodeError>): (r: Result<seq<T>, FetchError>)
    ensures t.error.Some? ==> r == Failure(Transport(t.error.value))
    ensures t.error.None? && t.data.None? ==> r == Failure(NoData)
    ensures r.Success? <==> t.error.None? && t.data.Some? && DecodeBody(t.data.value, element).Success?
    ensures r.Success? ==> r.value == DecodeBody(t.data.value, element).value
    ensures t.error.None? && t.data.Some? && r.Failure? ==> r == Failure(Decoding(DecodeBody(t.data.value, element).error))
  {
    if t.error.Some? then Failure(Transport(t.error.value))
    else if t.data.None? then Failure(NoData)
    else match DecodeBody(t.data.value, element)
      case Success(items) => Success(items)
      case Failure(e) => Failure(Decoding(e))
  }

  /** Whatever the status code, the classification is the same. */
  lemma FetchIgnoresStatus<T>(t: TaskResult, status: Option<int>, element: Json -> Result<T, DecodeError>)
    ensures Fetch(t.(status := status), element) == Fetch(t, element)
  {
  }

  /** One post whose attachments lack a name or a path fails the whole fetch of posts. */
  lemma OneBadAttachmentFailsFetch(items: seq<Json>, i: nat)
    requires i < |items| && items[i].JObject?
    requires "attachments" in items[i].fields && items[i].fields["attachments"].JArray?
    requires exists k | 0 <= k < |items[i].fields["attachments"].items| ::
      !AttachmentShape(items[i].fields["attachments"].items[k])
    ensures Fetch(TaskResult(None, Some(Parsed(JArray(items))), Some(200)), DecodePost).Failure?
  {
    assert !PostShape(items[i]);
  }
}
