# Coupon bot decision logic in Dafny

This project models the decision logic of `BotManager` in `main.py` of the
coupon-posting Telegram bot. The bot searches three coupon sites, removes
coupons whose title it has already posted, and publishes one coupon per cycle
to a channel. It posts an image when one can be obtained and plain text
otherwise, and a two-tier retry loop keeps it running. Every external call
is modelled as an outcome that the caller supplies. These calls are the
Google search, the image download and rendering, the URL shortener, the
Telegram calls and the random shuffle. Whether `cupom.png` exists is state
of the model: the caller supplies it once, before the first cycle, and each
cycle updates it from the download and rendering outcomes.

Modules:

- `Coupons` (`coupons.dfy`): the shared data model. It holds `Option`, `Result` (a value, or an exception the
  surrounding `try` catches), Python truthiness of optional strings, and the
  `Candidate` record (`titulo`, `descricao`, `link`, `imagem`, `fonte`).
- `Sources` (`sources.dfy`): `buscar_cupons_google` and `get_cupons`. It maps search items to candidates
  and makes a failing site contribute nothing. It concatenates the sites in list order and shuffles the result. The
  shuffle is the Fisher–Yates loop of `random.shuffle`. The random draws are
  an oracle, reduced into range.
- `Dedup` (`dedup.dfy`): the filter against `posted_coupons` and the reset-and-pick-first policy.
- `Publish` (`publish.dfy`): `shorten_url`, the caption, and the download / render / photo-or-text
  fallback. It also holds `post_cupons` as one function from a batch, the bot's memory
  (posted titles and whether `cupom.png` exists) and the call outcomes.
- `Supervisor` (`supervisor.dfy`): `run` and `handle_exit` as a small-step machine over events. An event is a
  signal or the outcome of the next external call. That call is the initialisation at the
  outer loop head and a cycle at the inner loop head. A log of the calls made
  gives the retry counter an independent reading: the number of escalations
  since the last successful initialisation.

Behaviour of `main.py` that the model keeps as written:

- A cycle error breaks out to the outer loop (main.py:179-183), so the session is initialised again. The retry counter is left unchanged.
- The bot gives up when the counter reaches `MAX_RETRIES` (`>=`, main.py:189), that is, after exactly five consecutive escalations.
- The waits (main.py:178, 182, 195) cannot be interrupted. A signal only takes effect when control reaches a loop head
  (main.py:166, 174).
- On success the shortener returns whatever `shortenedUrl` holds, including an empty string (main.py:238).
- A leftover `cupom.png` from an earlier cycle counts as an existing image (main.py:135). Such a file is sent as
  the photo of a later coupon whose download and rendering both failed (`Publish.LeftoverFileIsSent`).

## Model

| member | source | states |
|---|---|---|
| Sources.ImageOf | main.py:72 | the thumbnail lookup raises exactly when `cse_image` is present and empty; otherwise it yields the `src` of the first `cse_image` entry when `pagemap` and `cse_image` are present, and no image when either is missing |
| Sources.NormaliseItem | main.py:67-74 | an item becomes a candidate exactly when title, snippet and link are present and the thumbnail lookup does not raise; the candidate carries those fields and the searched site |
| Sources.NormaliseAll | main.py:67-76 | the comprehension succeeds iff every item normalises, and then yields one candidate per item, in item order |
| Sources.SearchSite | main.py:59-81 | a failed request, a missing `items` key or any failing item yields `[]`; otherwise each item maps to its candidate in order; every candidate is tagged with the site |
| Sources.Gather | main.py:92-95 | every gathered candidate comes from one of the queried sites |
| Sources.GatherSites | main.py:87-95 | over the fixed site list, gathering is the three site searches concatenated in list order |
| Sources.Shuffle | main.py:96 | the shuffle returns a permutation of its input, whatever the random draws |
| Sources.GetCupons | main.py:83-101 | the batch is a permutation of the three site searches concatenated, and every candidate's source is one of the sites |
| Dedup.FilterNew | main.py:113 | the filtered batch is an order-preserving subsequence holding every candidate with an unposted title as often as the batch does, and none other; it is empty iff no title is unposted |
| Dedup.Select | main.py:107-120 | an empty batch selects nothing; with an unposted title the history is kept and the pool is exactly the filtered batch; otherwise the history is cleared and the pool is the original batch unchanged; the pool is never empty |
| Dedup.FilterNewFirst | main.py:113-120 | the candidate picked is the first one in batch order whose title is unposted |
| Dedup.FilterNewIdempotent | main.py:113 | filtering an already filtered batch with the same history changes nothing |
| Dedup.FilterNewRecord | main.py:113-151 | recording one more title removes exactly the candidates with that title from what was new |
| Publish.ShortenUrl | main.py:226-244 | the result is the original URL unless a key is set and the reply is a success carrying `shortenedUrl`, in which case it is that value; no key, an exception or a non-success status give the original URL |
| Publish.ComposeCaption | main.py:122-125 | the caption keeps title and description, and its link is the shortener's answer: the short URL of a success reply with a key set, the original link whenever the key is unset, the call raised or the status is not success |
| Publish.ProduceArtifact | main.py:127-132 | the download runs iff there is a non-empty image URL; rendering runs iff there is none or the download failed; the file exists iff it already existed or one of the steps that ran wrote it |
| Publish.Deliver | main.py:127-149 | a photo is sent iff the file exists at check time, otherwise text, with the same caption; the file state afterwards is what the image fallback leaves |
| Publish.PostCupons | main.py:103-161 | an empty batch changes nothing and posts nothing; otherwise the selected candidate is attempted with the delivery and file state the image fallback produces for it, and the history afterwards is the selection's history plus that title exactly when the send succeeded |
| Publish.PostsFirstUnposted | main.py:112-151 | with an unposted title, the first such candidate is posted; a successful send adds exactly its new title (history size grows by one); a failed send leaves the history unchanged |
| Publish.ExhaustedBatchResets | main.py:114-120 | a non-empty batch of posted titles clears the history, keeps the original batch and publishes its first candidate |
| Publish.HistoryGrowsOrResets | main.py:113-151 | across a cycle the history keeps all its titles and gains at most the posted one, or it was reset and holds at most that title |
| Publish.TextFallback | main.py:128-149 | with no leftover file, no usable image URL or a failed download, and a failed render, the caption is still sent as text |
| Publish.LeftoverFileIsSent | main.py:134-142 | when this cycle writes no image, a file left by an earlier cycle is sent as the photo with this cycle's caption |
| Publish.RemainderStaysAvailable | main.py:113-151 | after a successful post, the next cycle's filter on the same batch is the previous pool minus the posted title; when that remainder is non-empty the next cycle selects from it with the history kept, and when it is empty the next cycle resets to the whole batch with a cleared history |
| Publish.PostAddsNewTitle | main.py:113-151 | a successful post from a batch with an unposted title adds one title of the batch that was not posted before |
| Publish.NoRepostWithinEpoch | main.py:113-151 | from an empty history, n successful cycles on one batch with at least n distinct titles post n distinct titles of the batch |
| Publish.ExampleResetKeepsOrder | main.py:114-117 | titles A, B, C all posted: the pool is the batch A, B, C in order and the history is empty |
| Supervisor.HandleExit | main.py:36-38 | the signal handler clears `should_restart` and changes nothing else |
| Supervisor.Settle | main.py:166-174 | at the loop heads a cleared flag ends the run, a set flag lets it continue |
| Supervisor.Escalate | main.py:185-195 | the outer handler adds one to the counter and stops with the flag cleared once it reaches `MAX_RETRIES`, otherwise returns to the outer loop |
| Supervisor.Step | main.py:163-195 | one event keeps the invariant (counter equals escalations since the last success, below the limit while running, zero inside a session); calls are only appended; a stopped run stays put; a signal makes no call and clears the flag; the counter grows, by one, exactly on a failed initialisation or an exception escaping a cycle; a completed cycle stays in the cycle loop and only appends its call; an escalation below `MAX_RETRIES` returns to the outer loop with the flag set |
| Supervisor.Run | main.py:163-195 | any sequence of events keeps the invariant and only appends calls, and a run whose flag is clear does nothing |
| Supervisor.SuccessResetsCounter | main.py:168-171 | a successful initialisation sets the counter to 0 and enters the cycle loop |
| Supervisor.CycleErrorReinitialises | main.py:179-183 | a cycle error keeps the counter and returns to the outer loop, so the next call is an initialisation |
| Supervisor.FailedInitEscalates | main.py:168-195 | a failed initialisation goes to the outer handler: one more escalation, stopping at `MAX_RETRIES` and otherwise back to the outer loop |
| Supervisor.InitRaiseIsFailure | main.py:40-43 | an exception from `Bot(...)`, which sits outside `initialize_bot`'s own `try`, escalates exactly like a failed initialisation: below `MAX_RETRIES` the run returns to the outer loop |
| Supervisor.CycleDoneContinues | main.py:174-178 | a completed cycle stays in the cycle loop with the counter at 0 and the flag set, so the next call is another cycle |
| Supervisor.EscapeEscalates | main.py:174-195 | an exception escaping a cycle's handler raises the counter from 0 to 1 and returns to the outer loop |
| Supervisor.CounterCountsEscalations | main.py:164-195 | the counter grows by one exactly when the step was a failed initialisation or an exception escaping to the outer handler, stated both over the calls logged and over the events |
| Supervisor.FailuresExhaustRetries | main.py:164-195 | consecutive failed initialisations raise the counter one by one; reaching `MAX_RETRIES` stops the run with the flag cleared |
| Supervisor.TerminationBound | main.py:164-192 | from the start, exactly `MAX_RETRIES` consecutive failed initialisations stop the run, and fewer do not |
| Supervisor.StoppedIsFinal | main.py:166-192 | once stopped, no event causes another initialisation or cycle |
| Supervisor.SignalEndsRun | main.py:36-38 | after a signal, whatever follows, no further initialisation or cycle happens and the run ends |
| Supervisor.ReachableIsValid | main.py:163-195 | every reachable state keeps the counter at the escalations since the last success and within `MAX_RETRIES` |

## Left out

- Telegram calls (`get_chat`, `send_message`, `send_photo`) are external transport. They appear only as success or failure outcomes: `Send` in a cycle, `Succeeds`/`Fails` at initialisation.
- HTTP requests, timeouts and JSON decoding in search, download and shortener are foreign I/O. They appear as `SearchOutcome`, `Download` and `ShortenReply`.
- JSON values of unexpected types are not modelled. Examples are a non-string `shortenedUrl`, a non-dict `cse_image` entry and non-string search fields. The model only distinguishes a missing key from a present string.
- ShortenUrl: the case where `shortenedUrl` is present but JSON `null` (the code then returns `None`) is not modelled.
- PIL rendering, fonts and file writes are library calls. `create_image` and `download_image` are success or failure outcomes, and the file `cupom.png` is a boolean. A failure after the file was opened could leave a partial file; this is not modelled.
- `asyncio.sleep`, `POST_INTERVAL` and `RECONNECT_DELAY` carry no real-time reasoning. A wait is the step between two events.
- The randomness of `random.shuffle` is replaced by an oracle of draws. Only the permutation is stated.
- Installing the signal handlers (`signal.signal`) is left out. A signal is an event that runs `handle_exit`.
- `load_dotenv`, the environment variables and the required-configuration check at main.py:25-26 are configuration plumbing.
- Logging (`print`) is left out. An exception raised while logging is one way a cycle error or an escaped exception (`Escapes`) arises. Those outcomes are inputs.
- The caption text layout is left out, including the unmatched `}` at main.py:125, which Python rejects. The caption is a record of title, description and link.
- Supervisor.Run: the run machine does not carry the posting history. A cycle's effect on the history and the image file is `Publish.PostCupons`, and the machine only sees each cycle's outcome.
- The outer `except` of `get_cupons` (main.py:99-101) and the re-raise in `post_cupons` (main.py:159-161) cannot be reached from the modelled parts. The same holds for the `else` at main.py:156-157. They have no counterpart in the model.
- The process exit status of the `__main__` block (main.py:246-255) is left out.
- `keep_alive.py` is a Flask liveness endpoint on a daemon thread. It is pure I/O with no logic.
