/**
  One publishing cycle (`post_cupons`) after the batch has been gathered:
  select a candidate, compose its caption with a possibly shortened link,
  obtain an image (download, else render), send a photo when the image file
  exists and plain text otherwise, and record the title only once the send
  went through. Every external call is an outcome supplied by the caller.
 */
module Publish {
  import opened Coupons
  import opened Dedup

  /** What the URL shortener call yields: it raised (network, HTTP status,
      JSON decoding), or a decoded body with optional `status` and
      `shortenedUrl` keys. */
  datatype ShortenReply = ShortenRaised | ShortenJson(status: Option<string>, shortenedUrl: Option<string>)

  /** `shorten_url`: without a configured key, on any exception, or on a
      non-"success" status the original URL comes back; on success the
      `shortenedUrl` value, defaulting to the original URL. */
  function ShortenUrl(url: string, apiKey: Option<string>, reply: ShortenReply): (r: string)
    ensures r == url || (Truthy(apiKey) && reply == ShortenJson(Some("success"), Some(r)))
    ensures !Truthy(apiKey) ==> r == url
    ensures reply.ShortenRaised? ==> r == url
    ensures reply.ShortenJson? && reply.status != Some("success") ==> r == url
    ensures Truthy(apiKey) && reply.ShortenJson? && reply.status == Some("success") ==>
              r == reply.shortenedUrl.GetOr(url)
  {
    if !Truthy(apiKey) then url
    else match reply
      case ShortenRaised => url
      case ShortenJson(status, shortened) =>
        if status == Some("success") then shortened.GetOr(url) else url
  }

  /** The caption of a post: title, description and the link to show. */
  datatype Caption = Caption(title: string, description: string, link: string)

  /** Composes the caption of a candidate; its link is the shortener's answer. */
  function ComposeCaption(c: Candidate, apiKey: Option<string>, reply: ShortenReply): (cap: Caption)
    ensures cap.title == c.title && cap.description == c.description
    ensures cap.link == ShortenUrl(c.link, apiKey, reply)
    ensures cap.link == c.link || reply == ShortenJson(Some("success"), Some(cap.link))
    ensures !Truthy(apiKey) || reply.ShortenRaised? ==> cap.link == c.link
    ensures Truthy(apiKey) && reply.ShortenJson? && reply.status == Some("success") ==>
              cap.link == reply.shortenedUrl.GetOr(c.link)
  {
    Caption(c.title, c.description, ShortenUrl(c.link, apiKey, reply))
  }

  /** Whether `download_image` fetched and wrote the file (it returns `True`). */
  datatype Download = Downloaded | DownloadFailed

  /** Whether `create_image` rendered and saved the file. */
  datatype Render = Rendered | RenderFailed

  /** Which image steps ran and whether `cupom.png` exists afterwards. */
  datatype ArtifactSteps = ArtifactSteps(downloadTried: bool, renderTried: bool, fileExists: bool)

  /** The image part of a cycle: download when the candidate has an image
      URL, render when there is none or the download failed. The file slot
      is never cleared, so a file left by an earlier cycle still exists. */
  function ProduceArtifact(c: Candidate, slot: bool, download: Download, render: Render): (a: ArtifactSteps)
    ensures a.downloadTried <==> Truthy(c.image)
    ensures a.renderTried <==> !Truthy(c.image) || download == DownloadFailed
    ensures a.fileExists <==> slot || (a.downloadTried && download == Downloaded) ||
                              (a.renderTried && render == Rendered)
  {
    var downloaded := Truthy(c.image) && download == Downloaded;
    var rendered := !downloaded && render == Rendered;
    ArtifactSteps(Truthy(c.image), !downloaded, slot || downloaded || rendered)
  }

  /** What is sent to the channel. */
  datatype Delivery = Photo(caption: Caption) | TextOnly(caption: Caption)

  /** Whether the channel accepted the message. */
  datatype Send = Sent | SendFailed

  /** The outcomes of the external calls one cycle makes. */
  datatype CycleEnv = CycleEnv(
    apiKey: Option<string>,
    shortenReply: ShortenReply,
    download: Download,
    render: Render,
    send: Send
  )

  /** The bot's state that outlives a cycle: `posted_coupons` and whether
      `cupom.png` exists. */
  datatype Memory = Memory(posted: set<string>, slot: bool)

  /** What a cycle did: nothing (empty batch), or one publish attempt. */
  datatype Report = NothingFound | Attempted(candidate: Candidate, delivery: Delivery, sent: bool)

  datatype CycleResult = CycleResult(memory: Memory, report: Report)

  /** What one publish attempt sends, and whether `cupom.png` exists
      afterwards (the file state the next cycle starts from). */
  datatype Attempt = Attempt(delivery: Delivery, fileExists: bool)

  /** The publish attempt of one candidate: a photo when the file exists at
      check time, text otherwise, with the same caption either way. */
  function Deliver(c: Candidate, slot: bool, env: CycleEnv): (r: Attempt)
    ensures r.delivery.caption == ComposeCaption(c, env.apiKey, env.shortenReply)
    ensures r.fileExists == ProduceArtifact(c, slot, env.download, env.render).fileExists
    ensures r.delivery.Photo? <==> r.fileExists
  {
    var caption := ComposeCaption(c, env.apiKey, env.shortenReply);
    var steps := ProduceArtifact(c, slot, env.download, env.render);
    if steps.fileExists then Attempt(Photo(caption), true) else Attempt(TextOnly(caption), false)
  }

  /** `post_cupons` on a gathered batch: an empty batch posts nothing and
      changes nothing; otherwise exactly the selected candidate is attempted,
      and its title is recorded exactly when the send succeeds. */
  function PostCupons(batch: seq<Candidate>, mem: Memory, env: CycleEnv): (r: CycleResult)
    ensures |batch| == 0 ==> r == CycleResult(mem, NothingFound)
    ensures |batch| > 0 ==> r.report.Attempted? && r.report.candidate == Select(batch, mem.posted).Chosen()
    ensures r.report.Attempted? ==> (r.report.sent <==> env.send == Sent)
    ensures r.report.Attempted? ==>
              var base := Select(batch, mem.posted).posted;
              r.memory.posted == if r.report.sent then base + {r.report.candidate.title} else base
    ensures r.report.Attempted? ==>
              r.report.delivery.caption == ComposeCaption(r.report.candidate, env.apiKey, env.shortenReply)
    ensures r.report.Attempted? ==> (r.report.delivery.Photo? <==> r.memory.slot)
    ensures r.report.Attempted? ==>
              Attempt(r.report.delivery, r.memory.slot) == Deliver(r.report.candidate, mem.slot, env)
    ensures mem.slot ==> r.memory.slot
  {
    match Select(batch, mem.posted)
    case NoCandidates => CycleResult(mem, NothingFound)
    case Pick(pool, posted) =>
      var c := pool[0];
      var attempt := Deliver(c, mem.slot, env);
      var sent := env.send == Sent;
      CycleResult(Memory(if sent then posted + {c.title} else posted, attempt.fileExists),
                  Attempted(c, attempt.delivery, sent))
  }

  /** A batch with an unposted title publishes the first such candidate in
      batch order; the history keeps every title and gains exactly that one,
      and only when the send succeeds. */
  lemma PostsFirstUnposted(batch: seq<Candidate>, mem: Memory, env: CycleEnv, i: nat)
    requires i < |batch| && batch[i].title !in mem.posted
    requires forall j :: 0 <= j < i ==> batch[j].title in mem.posted
    ensures PostCupons(batch, mem, env).report.Attempted?
    ensures PostCupons(batch, mem, env).report.candidate == batch[i]
    ensures PostCupons(batch, mem, env).report.sent == (env.send == Sent)
    ensures env.send == Sent ==> PostCupons(batch, mem, env).memory.posted == mem.posted + {batch[i].title}
    ensures env.send == Sent ==> |PostCupons(batch, mem, env).memory.posted| == |mem.posted| + 1
    ensures env.send == SendFailed ==> PostCupons(batch, mem, env).memory.posted == mem.posted
  {
    FilterNewFirst(batch, mem.posted, i);
    assert HasUnposted(batch, mem.posted);
  }

  /** A non-empty batch whose titles are all posted clears the history and
      publishes the first candidate of the original batch. */
  lemma ExhaustedBatchResets(batch: seq<Candidate>, mem: Memory, env: CycleEnv)
    requires |batch| > 0
    requires forall j :: 0 <= j < |batch| ==> batch[j].title in mem.posted
    ensures Select(batch, mem.posted) == Pick(batch, {})
    ensures PostCupons(batch, mem, env).report.candidate == batch[0]
    ensures PostCupons(batch, mem, env).memory.posted == if env.send == Sent then {batch[0].title} else {}
  {
  }

  /** Across one cycle the history either keeps all its titles and gains at
      most the published one, or it was reset and holds at most that title. */
  lemma HistoryGrowsOrResets(batch: seq<Candidate>, mem: Memory, env: CycleEnv)
    ensures var r := PostCupons(batch, mem, env);
            (mem.posted <= r.memory.posted &&
             (r.report.Attempted? ==> r.memory.posted - mem.posted <= {r.report.candidate.title}) &&
             (r.report.NothingFound? ==> r.memory.posted == mem.posted))
            || (|batch| > 0 && !HasUnposted(batch, mem.posted) &&
                r.memory.posted <= {r.report.candidate.title})
  {
  }

  /** With no image file left over, no usable image URL or a failed download,
      and a failed render, the cycle still sends the caption as text. */
  lemma TextFallback(batch: seq<Candidate>, mem: Memory, env: CycleEnv)
    requires |batch| > 0 && !mem.slot && env.render == RenderFailed
    requires var c := Select(batch, mem.posted).Chosen(); !Truthy(c.image) || env.download == DownloadFailed
    ensures var r := PostCupons(batch, mem, env);
            r.report.delivery == TextOnly(ComposeCaption(r.report.candidate, env.apiKey, env.shortenReply)) &&
            !r.memory.slot
  {
  }

  /** The file slot is never cleared: when this cycle neither downloads nor
      renders an image, a file left by an earlier cycle is sent as the photo,
      under this cycle's caption. */
  lemma LeftoverFileIsSent(batch: seq<Candidate>, mem: Memory, env: CycleEnv)
    requires |batch| > 0 && mem.slot && env.render == RenderFailed
    requires var c := Select(batch, mem.posted).Chosen(); !Truthy(c.image) || env.download == DownloadFailed
    ensures var r := PostCupons(batch, mem, env);
            r.report.delivery == Photo(ComposeCaption(r.report.candidate, env.apiKey, env.shortenReply)) &&
            r.memory.slot
  {
  }

  /** The candidates not published in a cycle stay available: after a
      successful post from unposted candidates, the next cycle's filter on
      the same batch is the previous pool minus the published title. When
      that remainder is non-empty the next cycle selects from it with the
      history kept; when it is empty the next cycle resets to the batch. */
  lemma RemainderStaysAvailable(batch: seq<Candidate>, mem: Memory, env: CycleEnv)
    requires HasUnposted(batch, mem.posted) && env.send == Sent
    ensures var r := PostCupons(batch, mem, env);
            var pool := Select(batch, mem.posted).pool;
            FilterNew(batch, r.memory.posted) == FilterNew(pool, {r.report.candidate.title})
    ensures var r := PostCupons(batch, mem, env);
            var rest := FilterNew(Select(batch, mem.posted).pool, {r.report.candidate.title});
            |rest| > 0 ==> Select(batch, r.memory.posted) == Pick(rest, r.memory.posted)
    ensures var r := PostCupons(batch, mem, env);
            var rest := FilterNew(Select(batch, mem.posted).pool, {r.report.candidate.title});
            |rest| == 0 ==> Select(batch, r.memory.posted) == Pick(batch, {})
  {
    var r := PostCupons(batch, mem, env);
    FilterNewRecord(batch, mem.posted, r.report.candidate.title);
  }

  /** The titles carried by a batch. */
  function Titles(batch: seq<Candidate>): set<string> {
    set i | 0 <= i < |batch| :: batch[i].title
  }

  /** `n` cycles on the same batch and the same call outcomes. */
  function Cycles(batch: seq<Candidate>, mem: Memory, env: CycleEnv, n: nat): Memory
  {
    if n == 0 then mem else PostCupons(batch, Cycles(batch, mem, env, n - 1), env).memory
  }

  /** A successful post from a batch that still has an unposted title adds
      one title of the batch that was not in the history. */
  lemma PostAddsNewTitle(batch: seq<Candidate>, mem: Memory, env: CycleEnv)
    requires HasUnposted(batch, mem.posted) && env.send == Sent
    ensures var r := PostCupons(batch, mem, env);
            r.memory.posted == mem.posted + {r.report.candidate.title} &&
            r.report.candidate.title !in mem.posted &&
            r.report.candidate.title in Titles(batch)
  {
    var r := PostCupons(batch, mem, env);
    var pool := Select(batch, mem.posted).pool;
    assert r.report.candidate == pool[0];
    SubsequenceMembers(pool, batch, pool[0]);
    var i :| 0 <= i < |batch| && batch[i] == pool[0];
  }

  /** Some title of the batch is unposted while the history holds fewer
      titles than the batch, all of them from the batch. */
  lemma UnpostedRemains(batch: seq<Candidate>, posted: set<string>)
    requires posted <= Titles(batch) && |posted| < |Titles(batch)|
    ensures HasUnposted(batch, posted)
  {
    var missing := Titles(batch) - posted;
    assert Titles(batch) == posted + missing;
    assert |missing| > 0;
    var t :| t in missing;
    var i :| 0 <= i < |batch| && batch[i].title == t;
  }

  /** Starting from an empty history, successive successful cycles on one
      batch never publish a title twice before every title of the batch has
      been published once. */
  lemma {:induction false} NoRepostWithinEpoch(batch: seq<Candidate>, slot: bool, env: CycleEnv, n: nat)
    requires env.send == Sent && n <= |Titles(batch)|
    ensures Cycles(batch, Memory({}, slot), env, n).posted <= Titles(batch)
    ensures |Cycles(batch, Memory({}, slot), env, n).posted| == n
  {
    if n > 0 {
      NoRepostWithinEpoch(batch, slot, env, n - 1);
      var mem := Cycles(batch, Memory({}, slot), env, n - 1);
      UnpostedRemains(batch, mem.posted);
      PostAddsNewTitle(batch, mem, env);
    }
  }

  /** The reset scenario: titles A, B, C all posted; the pool is the original
      batch in its order and the history is empty before the post. */
  lemma ExampleResetKeepsOrder(a: Candidate, b: Candidate, c: Candidate)
    requires a.title == "A" && b.title == "B" && c.title == "C"
    ensures Select([a, b, c], {"A", "B", "C"}) == Pick([a, b, c], {})
  {
  }
}
