/** ProfileDownloadView.swift: the bulk fetch of a creator's posts (`fetchAllPosts` with its
    sink closures, and `fetchPosts`) and the download of a post's primary file
    (`downloadPostMedia`). Network responses arrive as events; the model is sequential. */
module ProfileDownload {
  import opened Wrappers
  import opened JsonValues
  import opened Decimal
  import opened Records
  import opened ApiService
  import opened PostDetail

  /** A page holding exactly this many posts asks for another page. */
  const PageSize: nat := 50

  const PageEndpoint: string := "https://kemono.su/api/v1/onlyfans/user/"

  predicate NoQuestionMark(s: string) {
    forall i | 0 <= i < |s| :: s[i] != '?'
  }

  /** The URL of `fetchPosts`: the creator, then the offset as the `o` query parameter. */
  function PageURL(creatorID: string, offset: int): (url: string)
    ensures |PageEndpoint| < |url| && url[..|PageEndpoint|] == PageEndpoint
    ensures |url| == |PageEndpoint| + |creatorID| + 3 + |IntToString(offset)|
    ensures url[|PageEndpoint|..|PageEndpoint| + |creatorID|] == creatorID
    ensures url[|url| - |IntToString(offset)| - 3..] == "?o=" + IntToString(offset)
  {
    PageEndpoint + creatorID + "?o=" + IntToString(offset)
  }

  /** The '?' that opens the query comes right after the creator ID. */
  lemma QueryMarkAt(creatorID: string, digits: string)
    ensures (creatorID + "?o=" + digits)[|creatorID|] == '?'
  {
  }

  /** A creator ID without '?' can be read back from the URL, and so can the offset. */
  lemma PageURLInjective(id1: string, o1: int, id2: string, o2: int)
    requires NoQuestionMark(id1) && NoQuestionMark(id2)
    requires PageURL(id1, o1) == PageURL(id2, o2)
    ensures id1 == id2 && o1 == o2
  {
    var d1, d2 := IntToString(o1), IntToString(o2);
    var r1, r2 := id1 + "?o=" + d1, id2 + "?o=" + d2;
    assert r1 == PageURL(id1, o1)[|PageEndpoint|..];
    assert r2 == PageURL(id2, o2)[|PageEndpoint|..];
    if |id1| < |id2| {
      QueryMarkAt(id1, d1);
      assert false;
    } else if |id2| < |id1| {
      QueryMarkAt(id2, d2);
      assert false;
    }
    assert id1 == r1[..|id1|] && id2 == r2[..|id2|];
    assert d1 == r1[|id1| + 3..] && d2 == r2[|id2| + 3..];
    IntToStringInjective(o1, o2);
  }

  /** What the data-task publisher of `fetchPosts` delivers: a transport failure, or the
      body with the HTTP status (None when the response is not an HTTP response). */
  datatype PublisherOutput = TransportFailed(description: string) | Delivered(body: Body, status: Option<int>)

  /** `fetchPosts` after the network: only status 200 passes, then the body must decode. */
  function FetchPostsOutcome(out: PublisherOutput): (r: Result<seq<Post>, FetchError>)
    ensures out.TransportFailed? ==> r == Failure(Transport(out.description))
    ensures out.Delivered? && out.status != Some(200) ==> r == Failure(BadServerResponse)
    ensures r.Success? <==> out.Delivered? && out.status == Some(200) && DecodeBody(out.body, DecodePost).Success?
    ensures r.Success? ==> r.value == DecodeBody(out.body, DecodePost).value
    ensures out.Delivered? && out.status == Some(200) && r.Failure? ==>
      r == Failure(Decoding(DecodeBody(out.body, DecodePost).error))
  {
    match out
    case TransportFailed(description) => Failure(Transport(description))
    case Delivered(body, status) =>
      if status != Some(200) then Failure(BadServerResponse)
      else match DecodeBody(body, DecodePost)
        case Success(posts) => Success(posts)
        case Failure(e) => Failure(Decoding(e))
  }

  // ---- The view's state and its transitions ----

  /** A directory URL, as its path components. */
  type Path = seq<string>

  /** The `@State` fields of the view that the core reads or writes. */
  datatype ViewState = ViewState(
    creatorID: string,
    posts: seq<Post>,
    isLoading: bool,
    errorMessage: Option<string>,
    offset: int,
    selectedDirectory: Option<Path>)

  const InitialState: ViewState := ViewState("", [], false, None, 0, None)

  /** A request issued by `fetchPosts`, with the creator ID and offset it was built from. */
  datatype PageRequest = PageRequest(creatorID: string, offset: int) {
    function URL(): string {
      PageURL(creatorID, offset)
    }
  }

  /** A new state and the page request the step issued, if any. */
  datatype Transition = Transition(state: ViewState, request: Option<PageRequest>)

  /** `fetchAllPosts`: with a non-empty creator ID, reset and request the page at the
      (just reset) offset; with an empty one, do nothing. */
  function FetchAllPostsStep(s: ViewState): (t: Transition)
    ensures t.request.Some? <==> s.creatorID != ""
    ensures t.request.None? ==> t.state == s
    ensures t.request.Some? ==>
      && t.request.value == PageRequest(s.creatorID, 0)
      && t.request.value.URL() == PageURL(s.creatorID, 0)
      && t.state == s.(posts := [], isLoading := true, errorMessage := None, offset := 0)
  {
    if s.creatorID == "" then Transition(s, None)
    else
      var reset := s.(isLoading := true, errorMessage := None, offset := 0, posts := []);
      Transition(reset, Some(PageRequest(reset.creatorID, reset.offset)))
  }

  /** The `receiveValue` closure: append the page; on a full page advance the offset and
      re-enter `fetchAllPosts`, whose reset undoes both. */
  function ReceiveValueStep(s: ViewState, newPosts: seq<Post>): (t: Transition)
    ensures t.request.Some? <==> |newPosts| == PageSize && s.creatorID != ""
    ensures t.state.creatorID == s.creatorID && t.state.selectedDirectory == s.selectedDirectory
    ensures t.request.Some? ==>
      && t.request.value == PageRequest(s.creatorID, 0)
      && t.state.posts == [] && t.state.offset == 0
      && t.state.isLoading && t.state.errorMessage.None?
    ensures |newPosts| != PageSize ==> t.state == s.(posts := s.posts + newPosts)
    ensures |newPosts| == PageSize && s.creatorID == "" ==>
      t.state == s.(posts := s.posts + newPosts, offset := s.offset + PageSize)
  {
    var appended := s.(posts := s.posts + newPosts);
    if |newPosts| == PageSize then FetchAllPostsStep(appended.(offset := appended.offset + PageSize))
    else Transition(appended, None)
  }

  /** The `receiveCompletion` closure: a failure sets the message, and loading always stops. */
  function ReceiveCompletionStep(s: ViewState, failure: Option<string>): (s': ViewState)
    ensures !s'.isLoading
    ensures s'.errorMessage == if failure.Some? then failure else s.errorMessage
    ensures s'.posts == s.posts && s'.offset == s.offset && s'.creatorID == s.creatorID
    ensures s'.selectedDirectory == s.selectedDirectory
  {
    var noted := if failure.Some? then s.(errorMessage := failure) else s;
    noted.(isLoading := false)
  }

  /** Typing in the creator ID field: only the ID changes. */
  function EditCreatorIDStep(s: ViewState, id: string): (s': ViewState)
    ensures s'.creatorID == id
    ensures s'.(creatorID := s.creatorID) == s
  {
    s.(creatorID := id)
  }

  /** The directory panel: OK selects the chosen directory, a cancel (None) changes nothing. */
  function ChooseDirectoryStep(s: ViewState, chosen: Option<Path>): (s': ViewState)
    ensures chosen.Some? ==> s'.selectedDirectory == chosen
    ensures chosen.None? ==> s' == s
    ensures s'.(selectedDirectory := s.selectedDirectory) == s
  {
    if chosen.Some? then s.(selectedDirectory := chosen) else s
  }

  /** Everything that can happen to the view, in the order it happens. */
  datatype Event =
    | EditCreatorID(id: string)          // typing in the text field
    | FetchAll                           // the "Fetch All Posts" button
    | PageArrived(page: seq<Post>)       // a subscription delivers its decoded page
    | Completed(failure: Option<string>) // a subscription completes (with the error's description)
    | DirectoryChosen(chosen: Option<Path>) // the directory panel returns (None: cancelled)

  function Apply(s: ViewState, e: Event): (t: Transition)
    ensures t.request.Some? ==> t.request.value.offset == 0 && t.request.value.creatorID != ""
  {
    match e
    case EditCreatorID(id) => Transition(EditCreatorIDStep(s, id), None)
    case FetchAll => FetchAllPostsStep(s)
    case PageArrived(page) => ReceiveValueStep(s, page)
    case Completed(failure) => Transition(ReceiveCompletionStep(s, failure), None)
    case DirectoryChosen(chosen) => Transition(ChooseDirectoryStep(s, chosen), None)
  }

  datatype Trace = Trace(final: ViewState, requests: seq<PageRequest>)

  /** The state after a sequence of events, and every page request issued on the way. */
  function Run(s: ViewState, events: seq<Event>): (tr: Trace)
    ensures |tr.requests| <= |events|
    decreases |events|
  {
    if events == [] then Trace(s, [])
    else
      var t := Apply(s, events[0]);
      var rest := Run(t.state, events[1..]);
      Trace(rest.final, (if t.request.Some? then [t.request.value] else []) + rest.requests)
  }

  /** Running two sequences of events one after the other is running their concatenation. */
  lemma {:induction false} RunConcat(s: ViewState, a: seq<Event>, b: seq<Event>)
    ensures Run(s, a + b).final == Run(Run(s, a).final, b).final
    ensures Run(s, a + b).requests == Run(s, a).requests + Run(Run(s, a).final, b).requests
    decreases |a|
  {
    if a != [] {
      assert (a + b)[0] == a[0];
      assert (a + b)[1..] == a[1..] + b;
      RunConcat(Apply(s, a[0]).state, a[1..], b);
    } else {
      assert a + b == b;
    }
  }

  /** Whatever happens, every page request ever issued is for offset 0. */
  lemma {:induction false} EveryRequestIsForOffsetZero(s: ViewState, events: seq<Event>)
    ensures forall i | 0 <= i < |Run(s, events).requests| ::
      Run(s, events).requests[i].offset == 0 && Run(s, events).requests[i].creatorID != ""
    decreases |events|
  {
    if events != [] {
      EveryRequestIsForOffsetZero(Apply(s, events[0]).state, events[1..]);
    }
  }

  /** Whatever happens, the offset stays a multiple of the page size. */
  lemma {:induction false} OffsetStaysPageAligned(s: ViewState, events: seq<Event>)
    requires s.offset % PageSize == 0
    ensures Run(s, events).final.offset % PageSize == 0
    decreases |events|
  {
    if events != [] {
      OffsetStaysPageAligned(Apply(s, events[0]).state, events[1..]);
    }
  }

  // ---- A whole fetch against a server, as written and as evidently intended ----

  /** A server holding a creator's posts in pages: page i answers offset 50 * i, and any
      other offset gets an empty page. */
  function Serve(pages: seq<seq<Post>>, offset: int): (page: seq<Post>)
    ensures offset % PageSize == 0 && 0 <= offset / PageSize < |pages| ==> page == pages[offset / PageSize]
  {
    if offset % PageSize == 0 && 0 <= offset / PageSize < |pages| then pages[offset / PageSize] else []
  }

  /** As written: each round answers the pending request, which delivers its page and then
      completes successfully. Stops after `rounds` rounds or when no request is pending. */
  function Session(t: Transition, pages: seq<seq<Post>>, rounds: nat): (r: Transition)
    ensures r.state.creatorID == t.state.creatorID
    ensures rounds > 0 && t.request.Some? ==> !r.state.isLoading
    ensures r != t && r.request.Some? ==> r.request.value == PageRequest(t.state.creatorID, 0)
    decreases rounds
  {
    if rounds == 0 || t.request.None? then t
    else
      var delivered := ReceiveValueStep(t.state, Serve(pages, t.request.value.offset));
      Session(Transition(ReceiveCompletionStep(delivered.state, None), delivered.request), pages, rounds - 1)
  }

  /** As written, a full first page is fetched again and again: the request stays at offset
      0, the list is empty after every round, and the view does not show it is loading. */
  lemma {:induction false} AsWrittenNeverAdvances(t: Transition, pages: seq<seq<Post>>, rounds: nat)
    requires |pages| >= 1 && |pages[0]| == PageSize
    requires t.request == Some(PageRequest(t.state.creatorID, 0)) && t.state.creatorID != ""
    ensures Session(t, pages, rounds).request == t.request
    ensures Session(t, pages, rounds).state.creatorID == t.state.creatorID
    ensures rounds > 0 ==> Session(t, pages, rounds).state.posts == [] && !Session(t, pages, rounds).state.isLoading
    decreases rounds
  {
    if rounds > 0 {
      var delivered := ReceiveValueStep(t.state, Serve(pages, 0));
      var next := Transition(ReceiveCompletionStep(delivered.state, None), delivered.request);
      AsWrittenNeverAdvances(next, pages, rounds - 1);
    }
  }

  /** As written, a creator whose first page is short gets exactly that page. */
  lemma AsWrittenShortFirstPage(id: string, pages: seq<seq<Post>>)
    requires id != "" && |pages| >= 1 && |pages[0]| != PageSize
    ensures Session(FetchAllPostsStep(InitialState.(creatorID := id)), pages, 1)
         == Transition(InitialState.(creatorID := id, posts := pages[0]), None)
  {
    assert Serve(pages, 0) == pages[0];
  }

  /** How an intended fetch ends: the feed ran out, a page failed, or no more answers were given. */
  datatype PageEnd = Exhausted | Stopped(error: FetchError) | Unanswered

  datatype Paginated = Paginated(posts: seq<Post>, offsets: seq<int>, end: PageEnd)

  /** The paginator the code evidently intends (the next page at the next offset), named
      apart from the code as written: answer k is the response to the request at offset 50 * k;
      pages accumulate while they are full, and a failure keeps what came before it. */
  function IntendedPaginate(answers: seq<Result<seq<Post>, FetchError>>, k: nat): (p: Paginated)
    ensures |p.offsets| <= |answers| - k || (k >= |answers| && p.offsets == [])
    ensures |p.offsets| >= 1 ==> p.offsets[0] == k * PageSize
    decreases |answers| - k
  {
    if k >= |answers| then Paginated([], [], Unanswered)
    else match answers[k]
      case Failure(e) => Paginated([], [k * PageSize], Stopped(e))
      case Success(page) =>
        if |page| == PageSize then
          var rest := IntendedPaginate(answers, k + 1);
          Paginated(page + rest.posts, [k * PageSize] + rest.offsets, rest.end)
        else Paginated(page, [k * PageSize], Exhausted)
  }

  function Flatten(pages: seq<seq<Post>>): (all: seq<Post>)
    decreases |pages|
  {
    if pages == [] then [] else pages[0] + Flatten(pages[1..])
  }

  lemma {:induction false} FlattenLength(pages: seq<seq<Post>>, size: nat, last: nat)
    requires |pages| >= 1 && |pages[|pages| - 1]| == last
    requires forall i | 0 <= i < |pages| - 1 :: |pages[i]| == size
    ensures |Flatten(pages)| == size * (|pages| - 1) + last
    decreases |pages|
  {
    if |pages| > 1 {
      FlattenLength(pages[1..], size, last);
    }
  }

  /** The answers of a server that never fails. */
  function Answers(pages: seq<seq<Post>>): (a: seq<Result<seq<Post>, FetchError>>)
    ensures |a| == |pages| && forall i | 0 <= i < |pages| :: a[i] == Success(pages[i])
  {
    seq(|pages|, i requires 0 <= i < |pages| => Success(pages[i]))
  }

  /** Full pages followed by one short page: every post is collected, in order, and the
      offsets requested are 0, 50, 100, ... */
  lemma {:induction false} IntendedCollectsAllPages(pages: seq<seq<Post>>, k: nat)
    requires k < |pages| && |pages[|pages| - 1]| < PageSize
    requires forall i | 0 <= i < |pages| - 1 :: |pages[i]| == PageSize
    ensures IntendedPaginate(Answers(pages), k).posts == Flatten(pages[k..])
    ensures IntendedPaginate(Answers(pages), k).end == Exhausted
    ensures |IntendedPaginate(Answers(pages), k).offsets| == |pages| - k
    ensures forall i | 0 <= i < |pages| - k :: IntendedPaginate(Answers(pages), k).offsets[i] == (k + i) * PageSize
    decreases |pages| - k
  {
    var p := IntendedPaginate(Answers(pages), k);
    if k < |pages| - 1 {
      IntendedCollectsAllPages(pages, k + 1);
      assert pages[k..][1..] == pages[k + 1..];
    } else {
      assert pages[k..] == [pages[k]];
      assert Flatten(pages[k..]) == pages[k] + Flatten([]);
    }
  }

  /** A failure after some full pages stops the fetch and keeps the posts already collected. */
  lemma {:induction false} IntendedKeepsPostsBeforeFailure(answers: seq<Result<seq<Post>, FetchError>>, pages: seq<seq<Post>>, k: nat)
    requires k <= |pages| < |answers| && answers[|pages|].Failure?
    requires forall i | 0 <= i < |pages| :: answers[i] == Success(pages[i]) && |pages[i]| == PageSize
    ensures IntendedPaginate(answers, k).posts == Flatten(pages[k..])
    ensures IntendedPaginate(answers, k).end == Stopped(answers[|pages|].error)
    decreases |pages| - k
  {
    if k < |pages| {
      IntendedKeepsPostsBeforeFailure(answers, pages, k + 1);
      assert pages[k..][1..] == pages[k + 1..];
    } else {
      assert pages[k..] == [];
    }
  }

  /** Pages of 50, 50, 50 and 13 posts: the intended fetch collects 163 posts. */
  lemma IntendedFourPages(pages: seq<seq<Post>>)
    requires |pages| == 4 && |pages[0]| == 50 && |pages[1]| == 50 && |pages[2]| == 50 && |pages[3]| == 13
    ensures |IntendedPaginate(Answers(pages), 0).posts| == 163
    ensures IntendedPaginate(Answers(pages), 0).offsets == [0, 50, 100, 150]
    ensures IntendedPaginate(Answers(pages), 0).end == Exhausted
  {
    IntendedCollectsAllPages(pages, 0);
    assert pages[0..] == pages;
    FlattenLength(pages, 50, 13);
  }

  // ---- downloadPostMedia ----

  /** A started download: the URL fetched, the directory chosen and the file it is for. */
  datatype DownloadRequest = DownloadRequest(source: string, directory: Path, file: FileDetails)

  /** Swift's string interpolation of an optional `String`: its debug description. Escaping
      of quotes, backslashes and control characters inside the text is not modelled. */
  function InterpolatedOptional(o: Option<string>): (text: string)
    ensures o.None? ==> text == "nil"
    ensures o.Some? ==> |text| == |o.value| + 12
    ensures o.Some? ==>
      && text[..10] == "Optional(\""
      && text[10..|text| - 2] == o.value
      && text[|text| - 2..] == "\")"
  {
    match o
    case Some(v) => "Optional(\"" + v + "\")"
    case None => "nil"
  }

  /** The debug text tells nil from every string, and one string from another. */
  lemma InterpolatedOptionalInjective(a: Option<string>, b: Option<string>)
    ensures InterpolatedOptional(a) == InterpolatedOptional(b) <==> a == b
  {
    var ta, tb := InterpolatedOptional(a), InterpolatedOptional(b);
    if ta == tb && a.Some? && b.Some? {
      assert a.value == ta[10..|ta| - 2];
    }
  }

  /** As written: the source URL interpolates the optional path itself, not its value. */
  function PlanDownload(post: Post, selectedDirectory: Option<Path>): (r: Option<DownloadRequest>)
    ensures r.Some? <==> post.file.Some? && selectedDirectory.Some?
    ensures r.Some? ==> r.value.file == post.file.value && r.value.directory == selectedDirectory.value
    ensures r.Some? ==> |MediaHost| < |r.value.source| && r.value.source[..|MediaHost|] == MediaHost
  {
    match (post.file, selectedDirectory)
    case (Some(file), Some(dir)) => Some(DownloadRequest(MediaHost + InterpolatedOptional(file.path), dir, file))
    case _ => None
  }

  /** As written, the URL fetched is never the file's media URL. */
  lemma AsWrittenSourceIsNotMediaURL(post: Post, dir: Path, path: string)
    requires post.file.Some? && post.file.value.path == Some(path)
    ensures PlanDownload(post, Some(dir)).value.source != MediaURL(path)
    ensures PlanDownload(post, Some(dir)).value.source == MediaHost + "Optional(\"" + path + "\")"
  {
    assert |PlanDownload(post, Some(dir)).value.source| == |MediaHost| + |path| + 12;
  }

  /** As written, a file without a path is fetched from the host followed by "nil". */
  lemma AsWrittenNilPathSource(post: Post, dir: Path)
    requires post.file.Some? && post.file.value.path.None?
    ensures PlanDownload(post, Some(dir)).value.source == "https://coomer.sunil"
  {
  }

  /** As evidently intended: the media URL of the file's path; a file without a path is
      skipped like a post without a file. */
  function PlanDownloadIntended(post: Post, selectedDirectory: Option<Path>): (r: Option<DownloadRequest>)
    ensures r.Some? <==> post.file.Some? && post.file.value.path.Some? && selectedDirectory.Some?
    ensures r.Some? ==> r.value.source == MediaURL(post.file.value.path.value)
    ensures r.Some? ==> r.value.file == post.file.value && r.value.directory == selectedDirectory.value
  {
    match (post.file, selectedDirectory)
    case (Some(file), Some(dir)) =>
      if file.path.Some? then Some(DownloadRequest(MediaURL(file.path.value), dir, file)) else None
    case _ => None
  }

  /** Where `downloadPostMedia` ends up; nothing is reported back to the view. `Crashed` is
      the trap of force-unwrapping a nil file name. */
  datatype DownloadOutcome =
    | DownloadFailed
    | Moved(destination: Path)
    | MoveFailed(destination: Path, reason: string)
    | Crashed

  /** The download task's completion handler: without a downloaded file nothing happens;
      otherwise the file's name is force-unwrapped, the file is moved to the directory under
      that name, and a move error is caught. The name is one path component here, whereas
      `appendingPathComponent` splits a name holding '/' into several. */
  function CompleteDownload(req: DownloadRequest, downloaded: bool, moveError: Option<string>): (o: DownloadOutcome)
    ensures o.DownloadFailed? <==> !downloaded
    ensures o.Crashed? <==> downloaded && req.file.name.None?
    ensures o.Moved? || o.MoveFailed? ==>
      req.file.name.Some? && o.destination == req.directory + [req.file.name.value]
    ensures o.Moved? <==> downloaded && req.file.name.Some? && moveError.None?
    ensures o.MoveFailed? ==> moveError == Some(o.reason)
  {
    if !downloaded then DownloadFailed
    else if req.file.name.None? then Crashed
    else
      var destination := req.directory + [req.file.name.value];
      match moveError
      case None => Moved(destination)
      case Some(reason) => MoveFailed(destination, reason)
  }

  /** A primary file with a path but no name decodes and a download is planned for it; if
      that download delivers a file, the handler traps when it unwraps the name. As written
      the URL's host is not the media host, so a file is delivered only if that host answers;
      with the intended media URL the same trap follows any successful download. */
  lemma NamelessFileCrashes(post: Post, dir: Path, path: string)
    requires post.file == Some(FileDetails(None, Some(path)))
    ensures DecodeFileDetails(JObject(map["path" := JString(path)])) == Success(post.file.value)
    ensures PlanDownload(post, Some(dir)).Some?
    ensures CompleteDownload(PlanDownload(post, Some(dir)).value, true, None) == Crashed
    ensures PlanDownloadIntended(post, Some(dir)).Some?
    ensures CompleteDownload(PlanDownloadIntended(post, Some(dir)).value, true, None) == Crashed
  {
  }

  /** Only the primary file is ever downloaded: the attachments play no part. */
  lemma AttachmentsNeverDownloaded(post: Post, dir: Option<Path>, atts: Option<seq<Attachment>>)
    ensures PlanDownload(post.(attachments := atts), dir) == PlanDownload(post, dir)
    ensures PlanDownloadIntended(post.(attachments := atts), dir) == PlanDownloadIntended(post, dir)
  {
  }

  // ---- The view object ----

  /** The `@State` storage of `ProfileDownloadView`, updated in place by its actions. */
  class ProfileDownloadView {
    var creatorID: string
    var posts: seq<Post>
    var isLoading: bool
    var errorMessage: Option<string>
    var offset: int
    var selectedDirectory: Option<Path>

    function State(): ViewState
      reads this
    {
      ViewState(creatorID, posts, isLoading, errorMessage, offset, selectedDirectory)
    }

    constructor ()
      ensures State() == InitialState
    {
      creatorID := "";
      posts := [];
      isLoading := false;
      errorMessage := None;
      offset := 0;
      selectedDirectory := None;
    }

    /** The text field's binding. */
    method EditCreatorID(id: string)
      modifies this
      ensures State() == EditCreatorIDStep(old(State()), id)
    {
      creatorID := id;
    }

    /** The directory panel: a cancelled panel leaves the selection alone. */
    method ChooseDirectory(chosen: Option<Path>)
      modifies this
      ensures State() == ChooseDirectoryStep(old(State()), chosen)
    {
      if chosen.Some? {
        selectedDirectory := chosen;
      }
    }

    /** `fetchAllPosts`; returns the request `fetchPosts` issues, if any. */
    method FetchAllPosts() returns (request: Option<PageRequest>)
      modifies this
      ensures Transition(State(), request) == FetchAllPostsStep(old(State()))
      ensures request.Some? ==> request.value.offset == 0
    {
      if creatorID == "" {
        return None;
      }
      isLoading := true;
      errorMessage := None;
      offset := 0;
      posts := [];
      request := Some(PageRequest(creatorID, offset));
    }

    /** The `receiveValue` closure, re-entering `fetchAllPosts` after a full page. */
    method ReceiveValue(newPosts: seq<Post>) returns (request: Option<PageRequest>)
      modifies this
      ensures Transition(State(), request) == ReceiveValueStep(old(State()), newPosts)
    {
      posts := posts + newPosts;
      request := None;
      if |newPosts| == PageSize {
        offset := offset + PageSize;
        request := FetchAllPosts();
      }
    }

    /** The `receiveCompletion` closure. */
    method ReceiveCompletion(failure: Option<string>)
      modifies this
      ensures State() == ReceiveCompletionStep(old(State()), failure)
    {
      if failure.Some? {
        errorMessage := failure;
      }
      isLoading := false;
    }

    /** `downloadPostMedia` up to the start of the download task. */
    method DownloadPostMedia(post: Post) returns (request: Option<DownloadRequest>)
      ensures request.Some? <==> post.file.Some? && selectedDirectory.Some?
      ensures request == PlanDownload(post, selectedDirectory)
    {
      request := PlanDownload(post, selectedDirectory);
    }
  }
}
