/** internal/handler/mime.go: the walk over the parts of an email.
    The tree is the multipart structure of section 5.1 of RFC 2046, dispositions are those of section 2 of RFC 2183. */
module Mime {
  import opened Types

  /** A header that mime.ParseMediaType reads: missing, unparsable, or a lower-case value with parameters. */
  datatype Header = Absent | Malformed | Field(value: string, params: map<string, string>)

  /** One body part. Its body is what decodePart makes of it (None when that fails) and, read as a multipart,
      the parts the reader yields before it ends or, if `cut`, fails. */
  datatype Part = Part(
    contentType: Header,
    disposition: Header,
    decoded: Option<string>,
    parts: seq<Part>,
    cut: bool)

  datatype Attachment = Attachment(filename: string, contentType: string, content: string)

  datatype WalkError = DecodeFailed | NoBoundary | NextPartFailed

  /** What has been collected so far. */
  datatype Content = Content(html: string, text: string, attachments: seq<Attachment>)

  const NOTHING := Content("", "", [])

  function Param(h: Header, name: string): string {
    if h.Field? && name in h.params then h.params[name] else ""
  }

  /** A missing or unparsable content type counts as text/plain without parameters. */
  function MediaType(p: Part): string {
    if p.contentType.Field? then p.contentType.value else "text/plain"
  }

  predicate HasPrefix(s: string, prefix: string) {
    prefix <= s
  }

  predicate NamedByType(p: Part) {
    && Param(p.disposition, "filename") == ""
    && Param(p.contentType, "name") != ""
    && !HasPrefix(MediaType(p), "multipart/")
    && !HasPrefix(MediaType(p), "text/")
  }

  /** Disposed as an attachment, named by any disposition but inline, or named by a type that is neither text nor multipart. */
  predicate IsAttachment(p: Part) {
    || (p.disposition.Field? && p.disposition.value == "attachment")
    || (Param(p.disposition, "filename") != "" && p.disposition.value != "inline")
    || NamedByType(p)
  }

  function AttachmentName(p: Part): string {
    if NamedByType(p) then Param(p.contentType, "name") else Param(p.disposition, "filename")
  }

  predicate IsMultipart(p: Part) {
    !IsAttachment(p) && HasPrefix(MediaType(p), "multipart/")
  }

  /** What one step of a preorder walk meets. */
  datatype Leaf = Attached(a: Attachment) | Html(content: string) | Text(content: string) | Other | Bad(error: WalkError)

  function LeafOf(p: Part): Leaf {
    if p.decoded.None? then Bad(DecodeFailed)
    else if IsAttachment(p) then Attached(Attachment(AttachmentName(p), MediaType(p), p.decoded.value))
    else if MediaType(p) == "text/html" then Html(p.decoded.value)
    else if MediaType(p) == "text/plain" then Text(p.decoded.value)
    else Other
  }

  /** The leaves of a part in preorder. Only a multipart that is not an attachment is looked into. */
  function Leaves(p: Part): seq<Leaf>
    decreases p, 0
  {
    if !IsMultipart(p) then [LeafOf(p)]
    else if Param(p.contentType, "boundary") == "" then [Bad(NoBoundary)]
    else LeavesOfAll(p.parts) + (if p.cut then [Bad(NextPartFailed)] else [])
  }

  function LeavesOfAll(ps: seq<Part>): seq<Leaf>
    decreases ps, 1
  {
    if ps == [] then [] else Leaves(ps[0]) + LeavesOfAll(ps[1..])
  }

  function Added(c: Content, l: Leaf): Content {
    match l
    case Attached(a) => c.(attachments := c.attachments + [a])
    case Html(s) => if c.html == "" then c.(html := s) else c
    case Text(s) => if c.text == "" then c.(text := s) else c
    case Other => c
    case Bad(_) => c
  }

  /** The left fold over leaves, ended by the first bad one. */
  function Fold(c: Content, leaves: seq<Leaf>): (Content, Option<WalkError>)
    decreases |leaves|
  {
    if leaves == [] then (c, None)
    else if leaves[0].Bad? then (c, Some(leaves[0].error))
    else Fold(Added(c, leaves[0]), leaves[1..])
  }

  lemma {:induction false} FoldConcat(c: Content, a: seq<Leaf>, b: seq<Leaf>)
    ensures Fold(c, a + b) == if Fold(c, a).1.Some? then Fold(c, a) else Fold(Fold(c, a).0, b)
    decreases |a|
  {
    if a == [] {
      assert a + b == b;
    } else {
      assert (a + b)[0] == a[0] && (a + b)[1..] == a[1..] + b;
      if !a[0].Bad? {
        FoldConcat(Added(c, a[0]), a[1..], b);
      }
    }
  }

  /** The fold fails exactly when some leaf is bad. */
  lemma {:induction false} FoldFails(c: Content, leaves: seq<Leaf>)
    ensures Fold(c, leaves).1.Some? <==> exists l :: l in leaves && l.Bad?
    decreases |leaves|
  {
    if leaves != [] {
      assert leaves == [leaves[0]] + leaves[1..];
      if !leaves[0].Bad? {
        FoldFails(Added(c, leaves[0]), leaves[1..]);
      }
    }
  }

  // What the walk means, read off the parts and their header fields alone.

  predicate Says(h: Header, name: string, text: string) {
    h.Field? && name in h.params && h.params[name] == text != ""
  }

  /** The name the part has from its disposition or, unless that names it, from a type that is neither text nor multipart. */
  ghost predicate Named(p: Part, name: string) {
    || Says(p.disposition, "filename", name)
    || ((forall n :: !Says(p.disposition, "filename", n)) && Says(p.contentType, "name", name)
        && !("multipart/" <= p.contentType.value) && !("text/" <= p.contentType.value))
  }

  /** The part is to be stored as a file: disposed as an attachment, or named, but not inline by its disposition. */
  ghost predicate Carries(p: Part) {
    || (p.disposition.Field? && p.disposition.value == "attachment")
    || exists n :: Named(p, n) && !(Says(p.disposition, "filename", n) && p.disposition.value == "inline")
  }

  /** The content type says so, or says nothing that can be read and `kind` is the default. */
  predicate HasType(p: Part, kind: string) {
    if p.contentType.Field? then p.contentType.value == kind else kind == "text/plain"
  }

  ghost predicate IsContainer(p: Part) {
    !Carries(p) && p.contentType.Field? && "multipart/" <= p.contentType.value
  }

  ghost predicate Bounded(p: Part) {
    exists b :: Says(p.contentType, "boundary", b)
  }

  /** The parts that the walk looks at, in preorder. */
  ghost function Parts(p: Part): seq<Part>
    decreases p, 0
  {
    if IsContainer(p) && Bounded(p) then [p] + PartsOfAll(p.parts) else [p]
  }

  ghost function PartsOfAll(ps: seq<Part>): seq<Part>
    decreases ps, 1
  {
    if ps == [] then [] else Parts(ps[0]) + PartsOfAll(ps[1..])
  }

  ghost predicate Usable(p: Part) {
    if IsContainer(p) then Bounded(p) && !p.cut else p.decoded.Some?
  }

  /** The part has a body of this type that is not empty. */
  ghost predicate Offers(p: Part, kind: string) {
    !Carries(p) && !IsContainer(p) && HasType(p, kind) && p.decoded.Some? && p.decoded.value != ""
  }

  /** `body` is the first body of its type, or empty if there is none. */
  ghost predicate FirstBody(body: string, ps: seq<Part>, kind: string) {
    if body == "" then forall p :: p in ps ==> !Offers(p, kind)
    else exists i :: 0 <= i < |ps| && Offers(ps[i], kind) && ps[i].decoded.value == body
                     && forall k :: 0 <= k < i ==> !Offers(ps[k], kind)
  }

  /** The attachment is what the part says. */
  ghost predicate IsFrom(a: Attachment, p: Part) {
    && p.decoded == Some(a.content) && HasType(p, a.contentType)
    && (Named(p, a.filename) || (a.filename == "" && forall n :: !Named(p, n)))
  }

  predicate Ascending(at: seq<nat>) {
    forall i, j :: 0 <= i < j < |at| ==> at[i] < at[j]
  }

  /** The attachment is that of part number k. */
  ghost predicate IsOfPart(a: Attachment, ps: seq<Part>, k: nat) {
    k < |ps| && Carries(ps[k]) && IsFrom(a, ps[k])
  }

  /** `at` lists the parts to be stored as files, in order, and the attachments are theirs. */
  ghost predicate AreFrom(attachments: seq<Attachment>, ps: seq<Part>, at: seq<nat>) {
    && |at| == |attachments| && Ascending(at)
    && (forall i :: 0 <= i < |at| ==> IsOfPart(attachments[i], ps, at[i]))
    && (forall k :: 0 <= k < |ps| && Carries(ps[k]) ==> k in at)
  }

  lemma SaysParam(h: Header, name: string)
    ensures Param(h, name) != "" ==> Says(h, name, Param(h, name))
    ensures forall n :: Says(h, name, n) ==> n == Param(h, name) != ""
  {
  }

  lemma HeadersMean(p: Part)
    ensures IsAttachment(p) <==> Carries(p)
    ensures IsMultipart(p) <==> IsContainer(p)
    ensures Bounded(p) <==> Param(p.contentType, "boundary") != ""
    ensures HasType(p, MediaType(p)) && forall kind :: HasType(p, kind) ==> kind == MediaType(p)
  {
    SaysParam(p.disposition, "filename");
    SaysParam(p.contentType, "name");
    SaysParam(p.contentType, "boundary");
    if IsAttachment(p) && !(p.disposition.Field? && p.disposition.value == "attachment") {
      assert Named(p, AttachmentName(p));
    }
    assert !HasPrefix("text/plain", "multipart/") by {
      assert "text/plain"[0] != "multipart/"[0];
    }
  }

  lemma NameMeans(p: Part)
    requires Carries(p)
    ensures Named(p, AttachmentName(p)) || (AttachmentName(p) == "" && forall n :: !Named(p, n))
  {
    SaysParam(p.disposition, "filename");
    SaysParam(p.contentType, "name");
  }

  /** What the parts contribute, one by one. */
  ghost function LeavesOf(ps: seq<Part>): seq<Leaf> {
    if ps == [] then [] else (if IsContainer(ps[0]) then [] else [LeafOf(ps[0])]) + LeavesOf(ps[1..])
  }

  lemma {:induction false} LeavesOfConcat(a: seq<Part>, b: seq<Part>)
    ensures LeavesOf(a + b) == LeavesOf(a) + LeavesOf(b)
  {
    if a == [] {
      assert a + b == b;
    } else {
      assert (a + b)[0] == a[0] && (a + b)[1..] == a[1..] + b;
      LeavesOfConcat(a[1..], b);
    }
  }

  ghost predicate AllUsable(ps: seq<Part>) {
    forall p :: p in ps ==> Usable(p)
  }

  ghost predicate NoneBad(leaves: seq<Leaf>) {
    forall l :: l in leaves ==> !l.Bad?
  }

  /** The walk meets a bad leaf exactly when some part is unusable, and otherwise the leaves are those of the parts. */
  lemma {:induction false} LeavesMean(p: Part)
    ensures NoneBad(Leaves(p)) <==> AllUsable(Parts(p))
    ensures NoneBad(Leaves(p)) ==> Leaves(p) == LeavesOf(Parts(p))
    decreases p, 0
  {
    HeadersMean(p);
    if IsContainer(p) && Bounded(p) {
      AllLeavesMean(p.parts);
      var (leaves, ps) := (LeavesOfAll(p.parts), PartsOfAll(p.parts));
      assert ([p] + ps)[1..] == ps;
      if p.cut {
        assert Bad(NextPartFailed) in Leaves(p) && Parts(p)[0] in Parts(p);
      } else {
        assert Parts(p)[0] == p && forall q :: q in Parts(p) <==> q == p || q in ps;
        assert leaves + [] == leaves && [] + LeavesOf(ps) == LeavesOf(ps);
      }
    } else {
      assert [p][1..] == [] && [LeafOf(p)] + [] == [LeafOf(p)];
      assert p in Parts(p) && Leaves(p)[0] in Leaves(p);
    }
  }

  lemma {:induction false} AllLeavesMean(ps: seq<Part>)
    ensures NoneBad(LeavesOfAll(ps)) <==> AllUsable(PartsOfAll(ps))
    ensures NoneBad(LeavesOfAll(ps)) ==> LeavesOfAll(ps) == LeavesOf(PartsOfAll(ps))
    decreases ps, 1
  {
    if ps != [] {
      LeavesMean(ps[0]);
      AllLeavesMean(ps[1..]);
      LeavesOfConcat(Parts(ps[0]), PartsOfAll(ps[1..]));
    }
  }

  /** One part more in front. */
  lemma FirstBodyOnward(body: string, ps: seq<Part>, kind: string)
    requires ps != [] && (if Offers(ps[0], kind) then body == ps[0].decoded.value else FirstBody(body, ps[1..], kind))
    ensures FirstBody(body, ps, kind)
  {
    var rest := ps[1..];
    assert ps == [ps[0]] + rest;
    if !Offers(ps[0], kind) && body != "" {
      var i :| 0 <= i < |rest| && Offers(rest[i], kind) && rest[i].decoded.value == body
               && forall k :: 0 <= k < i ==> !Offers(rest[k], kind);
      assert Offers(ps[i + 1], kind);
    }
  }

  /** Which leaf a usable part is. */
  lemma PartMeans(p: Part)
    requires Usable(p) && !IsContainer(p)
    ensures LeafOf(p).Attached? <==> Carries(p)
    ensures LeafOf(p).Html? && LeafOf(p).content != "" <==> Offers(p, "text/html")
    ensures LeafOf(p).Text? && LeafOf(p).content != "" <==> Offers(p, "text/plain")
    ensures LeafOf(p).Html? || LeafOf(p).Text? ==> LeafOf(p).content == p.decoded.value
    ensures Carries(p) ==> IsFrom(LeafOf(p).a, p)
    ensures !LeafOf(p).Bad?
  {
    HeadersMean(p);
    assert "text/html" != "text/plain";
    if Carries(p) {
      NameMeans(p);
    }
  }

  /** The walk goes on with the rest of the parts. */
  lemma FoldOnward(c: Content, ps: seq<Part>)
    requires ps != [] && AllUsable(ps)
    ensures AllUsable(ps[1..])
    ensures Fold(c, LeavesOf(ps)) == Fold(if IsContainer(ps[0]) then c else Added(c, LeafOf(ps[0])), LeavesOf(ps[1..]))
  {
    assert ps[0] in ps;
    if IsContainer(ps[0]) {
      assert [] + LeavesOf(ps[1..]) == LeavesOf(ps[1..]);
    } else {
      PartMeans(ps[0]);
      assert LeavesOf(ps)[1..] == LeavesOf(ps[1..]);
    }
  }

  lemma {:induction false} HtmlMeans(c: Content, ps: seq<Part>)
    requires AllUsable(ps)
    ensures var html := Fold(c, LeavesOf(ps)).0.html; if c.html != "" then html == c.html else FirstBody(html, ps, "text/html")
    decreases |ps|
  {
    if ps != [] {
      FoldOnward(c, ps);
      assert ps[0] in ps;
      if IsContainer(ps[0]) {
        HtmlMeans(c, ps[1..]);
      } else {
        PartMeans(ps[0]);
        HtmlMeans(Added(c, LeafOf(ps[0])), ps[1..]);
      }
      if c.html == "" {
        FirstBodyOnward(Fold(c, LeavesOf(ps)).0.html, ps, "text/html");
      }
    }
  }

  lemma {:induction false} TextMeans(c: Content, ps: seq<Part>)
    requires AllUsable(ps)
    ensures var text := Fold(c, LeavesOf(ps)).0.text; if c.text != "" then text == c.text else FirstBody(text, ps, "text/plain")
    decreases |ps|
  {
    if ps != [] {
      FoldOnward(c, ps);
      assert ps[0] in ps;
      if IsContainer(ps[0]) {
        TextMeans(c, ps[1..]);
      } else {
        PartMeans(ps[0]);
        TextMeans(Added(c, LeafOf(ps[0])), ps[1..]);
      }
      if c.text == "" {
        FirstBodyOnward(Fold(c, LeavesOf(ps)).0.text, ps, "text/plain");
      }
    }
  }

  function Shifted(at: seq<nat>): (r: seq<nat>)
    ensures |r| == |at| && forall i :: 0 <= i < |at| ==> r[i] == at[i] + 1
  {
    seq(|at|, i requires 0 <= i < |at| => at[i] + 1)
  }

  lemma PartLater(a: Attachment, ps: seq<Part>, k: nat)
    requires ps != [] && IsOfPart(a, ps[1..], k)
    ensures IsOfPart(a, ps, k + 1)
  {
  }

  /** The first part is not to be stored. */
  lemma AreFromSkip(more: seq<Attachment>, ps: seq<Part>, at: seq<nat>)
    requires ps != [] && AreFrom(more, ps[1..], at) && !Carries(ps[0])
    ensures AreFrom(more, ps, Shifted(at))
  {
    forall i | 0 <= i < |at| ensures IsOfPart(more[i], ps, Shifted(at)[i]) {
      PartLater(more[i], ps, at[i]);
    }
    forall k | 0 <= k < |ps| && Carries(ps[k]) ensures k in Shifted(at) {
      ShiftedHas(at, k - 1, ps[1..], ps);
    }
  }

  lemma AscendingOnward(at: seq<nat>)
    requires Ascending(at)
    ensures Ascending([0] + Shifted(at))
  {
    var all := [0] + Shifted(at);
    forall i, j | 0 <= i < j < |all| ensures all[i] < all[j] {
      assert all[j] == at[j - 1] + 1;
    }
  }

  /** The first part is. */
  lemma AreFromOneMore(a: Attachment, more: seq<Attachment>, ps: seq<Part>, at: seq<nat>)
    requires ps != [] && AreFrom(more, ps[1..], at) && IsOfPart(a, ps, 0)
    ensures AreFrom([a] + more, ps, [0] + Shifted(at))
  {
    var all, attachments := [0] + Shifted(at), [a] + more;
    AscendingOnward(at);
    forall i | 0 <= i < |all| ensures IsOfPart(attachments[i], ps, all[i]) {
      if i > 0 {
        PartLater(more[i - 1], ps, at[i - 1]);
      }
    }
    forall k | 0 <= k < |ps| && Carries(ps[k]) ensures k in all {
      if k > 0 {
        ShiftedHas(at, k - 1, ps[1..], ps);
      }
    }
  }

  lemma ShiftedHas(at: seq<nat>, k: nat, rest: seq<Part>, ps: seq<Part>)
    requires k < |rest| && ps != [] && rest == ps[1..] && (Carries(rest[k]) ==> k in at)
    ensures Carries(ps[k + 1]) ==> k + 1 in Shifted(at)
  {
    if k in at {
      var i :| 0 <= i < |at| && at[i] == k;
      assert Shifted(at)[i] == k + 1;
    }
  }

  /** What the first part adds to the attachments. */
  ghost function Carried(p: Part): seq<Attachment> {
    if Carries(p) && LeafOf(p).Attached? then [LeafOf(p).a] else []
  }

  lemma CarriedMeans(c: Content, ps: seq<Part>)
    requires ps != [] && AllUsable(ps)
    ensures AllUsable(ps[1..])
    ensures exists c': Content ::
              c'.attachments == c.attachments + Carried(ps[0]) && Fold(c, LeavesOf(ps)) == Fold(c', LeavesOf(ps[1..]))
    ensures Carries(ps[0]) ==> |Carried(ps[0])| == 1 && IsFrom(Carried(ps[0])[0], ps[0])
  {
    FoldOnward(c, ps);
    assert ps[0] in ps;
    var c' := c;
    if !IsContainer(ps[0]) {
      PartMeans(ps[0]);
      c' := Added(c, LeafOf(ps[0]));
    }
    assert c.attachments + [] == c.attachments;
    assert c'.attachments == c.attachments + Carried(ps[0]);
  }

  lemma {:induction false} AttachmentsMean(c: Content, ps: seq<Part>) returns (more: seq<Attachment>, at: seq<nat>)
    requires AllUsable(ps)
    ensures Fold(c, LeavesOf(ps)).0.attachments == c.attachments + more && AreFrom(more, ps, at)
    decreases |ps|
  {
    more, at := [], [];
    if ps != [] {
      CarriedMeans(c, ps);
      var c': Content :| c'.attachments == c.attachments + Carried(ps[0]) && Fold(c, LeavesOf(ps)) == Fold(c', LeavesOf(ps[1..]));
      var rest, there := AttachmentsMean(c', ps[1..]);
      more, at := JoinedTo(ps, rest, there);
      Associative(c.attachments, Carried(ps[0]), rest);
    }
  }

  lemma Associative(a: seq<Attachment>, b: seq<Attachment>, c: seq<Attachment>)
    ensures a + b + c == a + (b + c)
  {
  }

  lemma JoinedTo(ps: seq<Part>, more: seq<Attachment>, at: seq<nat>) returns (all: seq<Attachment>, at': seq<nat>)
    requires ps != [] && AreFrom(more, ps[1..], at)
    requires Carries(ps[0]) ==> |Carried(ps[0])| == 1 && IsFrom(Carried(ps[0])[0], ps[0])
    ensures all == Carried(ps[0]) + more && AreFrom(all, ps, at')
  {
    all := Carried(ps[0]) + more;
    if Carries(ps[0]) {
      AreFromOneMore(Carried(ps[0])[0], more, ps, at);
      at' := [0] + Shifted(at);
    } else {
      AreFromSkip(more, ps, at);
      assert all == more;
      at' := Shifted(at);
    }
  }

  // The object the walk fills in.

  class ParsedMessage {
    var html: string
    var text: string
    var attachments: seq<Attachment>

    ghost function Collected(): Content
      reads this
    {
      Content(html, text, attachments)
    }

    constructor ()
      ensures Collected() == NOTHING
    {
      html, text, attachments := "", "", [];
    }
  }

  /** walkPart: the recursive walk that fills in the shared message is the left fold over the preorder leaves. */
  method WalkPart(out: ParsedMessage, p: Part) returns (error: Option<WalkError>)
    modifies out
    ensures (out.Collected(), error) == Fold(old(out.Collected()), Leaves(p))
    decreases p
  {
    var mediaType, params := "text/plain", map[];
    if p.contentType.Field? {
      mediaType, params := p.contentType.value, p.contentType.params;
    }
    var attachName, isAttachment := "", false;
    if p.disposition.Field? {
      var d, dp := p.disposition.value, p.disposition.params;
      if d == "attachment" {
        isAttachment := true;
      }
      if "filename" in dp && dp["filename"] != "" {
        attachName := dp["filename"];
        if d != "inline" {
          isAttachment := true;
        }
      }
    }
    if attachName == "" && "name" in params && params["name"] != ""
       && !HasPrefix(mediaType, "multipart/") && !HasPrefix(mediaType, "text/") {
      attachName := params["name"];
      isAttachment := true;
    }
    assert isAttachment == IsAttachment(p) && mediaType == MediaType(p);
    assert isAttachment ==> attachName == AttachmentName(p);

    if isAttachment {
      if p.decoded.None? {
        return Some(DecodeFailed);
      }
      out.attachments := out.attachments + [Attachment(attachName, mediaType, p.decoded.value)];
      return None;
    }

    if HasPrefix(mediaType, "multipart/") {
      if "boundary" !in params || params["boundary"] == "" {
        return Some(NoBoundary);
      }
      ghost var before := out.Collected();
      var i := 0;
      FoldConcat(before, LeavesOfAll(p.parts), if p.cut then [Bad(NextPartFailed)] else []);
      assert p.parts[0..] == p.parts;
      while i < |p.parts|
        invariant 0 <= i <= |p.parts|
        invariant Fold(before, LeavesOfAll(p.parts)) == Fold(out.Collected(), LeavesOfAll(p.parts[i..]))
      {
        ghost var rest := p.parts[i..];
        assert rest[0] == p.parts[i] && rest[1..] == p.parts[i + 1..];
        FoldConcat(out.Collected(), Leaves(p.parts[i]), LeavesOfAll(rest[1..]));
        error := WalkPart(out, p.parts[i]);
        if error.Some? {
          return;
        }
        i := i + 1;
      }
      return if p.cut then Some(NextPartFailed) else None;
    }

    if p.decoded.None? {
      return Some(DecodeFailed);
    }
    if mediaType == "text/html" {
      if out.html == "" {
        out.html := p.decoded.value;
      }
    } else if mediaType == "text/plain" {
      if out.text == "" {
        out.text := p.decoded.value;
      }
    }
    return None;
  }

  /** An email as net/mail reads it; None for a message whose header section does not parse. */
  datatype Email = Email(subject: string, fromEmail: string, date: Option<Time>, top: Part)

  datatype Parsed = Parsed(subject: string, fromEmail: string, date: Option<Time>, content: Content)

  /** What parseMessage should return: all the leaves, or nothing at all if one of them is bad. */
  function Parse(raw: Option<Email>): Option<Parsed> {
    if raw.None? then None else
      var (content, error) := Fold(NOTHING, Leaves(raw.value.top));
      if error.Some? then None else Some(Parsed(raw.value.subject, raw.value.fromEmail, raw.value.date, content))
  }

  method ParseMessage(raw: Option<Email>) returns (parsed: Option<Parsed>)
    ensures parsed == Parse(raw)
  {
    if raw.None? {
      return None;
    }
    var out := new ParsedMessage();
    var error := WalkPart(out, raw.value.top);
    if error.Some? {
      return None;
    }
    return Some(Parsed(raw.value.subject, raw.value.fromEmail, raw.value.date, Content(out.html, out.text, out.attachments)));
  }

  /** Parsing succeeds exactly when every part it looks at can be used. Then the attachments are those of the parts to be
      stored as files, in order, each with its name, type and content; HTML and text are each the first body of their type
      that is not empty; and the headers are kept. */
  lemma ParseMeaning(e: Email) returns (at: seq<nat>)
    ensures Parse(Some(e)).Some? <==> AllUsable(Parts(e.top))
    ensures Parse(Some(e)).Some? ==>
      var parsed := Parse(Some(e)).value;
      && parsed.subject == e.subject && parsed.fromEmail == e.fromEmail && parsed.date == e.date
      && AreFrom(parsed.content.attachments, Parts(e.top), at)
      && FirstBody(parsed.content.html, Parts(e.top), "text/html")
      && FirstBody(parsed.content.text, Parts(e.top), "text/plain")
  {
    at := [];
    LeavesMean(e.top);
    FoldFails(NOTHING, Leaves(e.top));
    if AllUsable(Parts(e.top)) {
      HtmlMeans(NOTHING, Parts(e.top));
      TextMeans(NOTHING, Parts(e.top));
      var more;
      more, at := AttachmentsMean(NOTHING, Parts(e.top));
      assert [] + more == more;
    }
  }
}
