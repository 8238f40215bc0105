/** cmd/updated: what the update service tells the user interface, and the consent it takes
    back. Every operation runs under the store's mutex, so a run is a sequence of them. */
module Consent {
  import opened Common
  import Stage

  datatype State = Idle | Available | Downloading | Ready | Error

  /** The fields that decide anything; the product names and versions ride along as `text`. */
  datatype Status = Status(state: State, digest: string, text: string, percent: int, error: string)

  const NONE := Status(Idle, "", "", 0, "")

  /** The consent token of an offer: a hash of the manifest digest under a fixed prefix. */
  type TokenOf = string -> string

  /** clientStatus: only an offer that names its manifest carries a token. */
  function Token(consent: TokenOf, s: Status): string {
    if s.state != Available || s.digest == "" then "" else consent(s.digest)
  }

  // --- The store as a value ---

  datatype Store = Store(live: Status, advertised: Status, file: Option<Status>)

  function Current(s: Store): Status {
    if s.live.state == Downloading then s.live else if s.file.Some? then s.file.value else NONE
  }

  function Offered(status: Status): Status { if status.state == Available then status else NONE }

  predicate Claims(consent: TokenOf, s: Store, token: string) {
    s.advertised.state == Available && token != "" && Token(consent, s.advertised) == token
  }

  function Begun(status: Status): Status { status.(state := Downloading, percent := 0, error := "") }

  function Claimed(s: Store): Store { s.(advertised := NONE, live := Begun(s.advertised)) }

  /** A poll may not publish over a live download or a staged update. */
  predicate Held(s: Store) { s.live.state == Downloading || (s.file.Some? && s.file.value.state == Ready) }

  function Published(s: Store, status: Status, writes: bool): Store {
    if Held(s) || !writes then s else s.(file := Some(status))
  }

  function Progressed(s: Store, done: int, total: int): Store {
    if total > 0 && s.live.state == Downloading then s.(live := s.live.(percent := Quotient(done * 100, total))) else s
  }

  /** Go's division truncates towards zero. */
  function Quotient(a: int, b: int): int
    requires b > 0
  {
    if a < 0 then -((-a) / b) else a / b
  }

  /** The quotient nearest to zero. */
  predicate Truncates(q: int, a: int, b: int) {
    if a >= 0 then q >= 0 && q * b <= a < q * b + b else q <= 0 && q * b - b < a <= q * b
  }

  lemma QuotientMeans(a: int, b: int)
    requires b > 0
    ensures Truncates(Quotient(a, b), a, b)
  {
    if a < 0 {
      var q := (-a) / b;
      Divides(-a, b, q);
      assert (-q) * b == -(q * b);
    } else {
      Divides(a, b, a / b);
    }
  }

  lemma Divides(c: int, b: int, q: int)
    requires c >= 0 && b > 0 && q == c / b
    ensures q >= 0 && q * b <= c < q * b + b
  {
  }

  function Completed(s: Store, status: Status, writes: bool): Store {
    s.(live := NONE, file := if writes then Some(status) else s.file)
  }

  class StatusStore {
    var live: Status
    var advertised: Status
    /** The status file; the path is empty when it cannot be read back. */
    var file: Option<Status>

    function Value(): Store
      reads this
    {
      Store(live, advertised, file)
    }

    constructor (file: Option<Status>)
      ensures Value() == Store(NONE, NONE, file)
    {
      live, advertised, this.file := NONE, NONE, file;
    }

    method CurrentLocked() returns (r: Status)
      ensures r == Current(Value())
    {
      if live.state == Downloading { return live; }
      if file.Some? { return file.value; }
      return NONE;
    }

    method AdvertiseLocked(status: Status)
      modifies this
      ensures Value() == old(Value()).(advertised := Offered(status))
    {
      if status.state == Available {
        advertised := status;
        return;
      }
      advertised := NONE;
    }

    method GetForClient() returns (r: Status)
      modifies this
      ensures r == Current(old(Value()))
      ensures Value() == old(Value()).(advertised := Offered(r))
      ensures r == if live.state == Downloading then live else if file.Some? then file.value else NONE
      ensures if r.state == Available then advertised == r else advertised.state != Available
    {
      r := CurrentLocked();
      AdvertiseLocked(r);
    }

    method ClaimDownload(consent: TokenOf, token: string) returns (r: Status, ok: bool)
      modifies this
      ensures ok == Claims(consent, old(Value()), token)
      ensures ok <==>
        && old(advertised).state == Available && old(advertised).digest != ""
        && token != "" && token == consent(old(advertised).digest)
      ensures ok ==>
        && live == Status(Downloading, old(advertised).digest, old(advertised).text, 0, "")
        && advertised.state != Available && file == old(file)
      ensures ok ==> r == old(advertised) && Value() == Claimed(old(Value()))
      ensures !ok ==> r == Current(old(Value())) && Value() == old(Value())
    {
      var status := advertised;
      if status.state != Available || token == "" || Token(consent, status) != token {
        r := CurrentLocked();
        return r, false;
      }
      advertised := NONE;
      live := status;
      live := live.(state := Downloading);
      live := live.(percent := 0);
      live := live.(error := "");
      return status, true;
    }

    method SetProgress(done: int, total: int)
      modifies this
      ensures Value() == Progressed(old(Value()), done, total)
      ensures live == old(live).(percent := live.percent) && advertised == old(advertised) && file == old(file)
      ensures total > 0 && old(live).state == Downloading ==> Truncates(live.percent, done * 100, total)
      ensures total <= 0 || old(live).state != Downloading ==> live == old(live)
    {
      if total <= 0 { return; }
      if live.state == Downloading {
        QuotientMeans(done * 100, total);
        live := live.(percent := Quotient(done * 100, total));
      }
    }

    method Complete(status: Status, writes: bool)
      modifies this
      ensures Value() == Completed(old(Value()), status, writes)
      ensures live == NONE && advertised == old(advertised) && file == if writes then Some(status) else old(file)
    {
      if writes { file := Some(status); }
      live := NONE;
    }

    method PublishPoll(status: Status, writes: bool) returns (r: Status, ok: bool)
      modifies this
      ensures Value() == Published(old(Value()), status, writes)
      ensures r == if Held(old(Value())) then Current(old(Value())) else status
      ensures ok == (Held(old(Value())) || writes)
      ensures live == old(live) && advertised == old(advertised)
      ensures var held := live.state == Downloading || (old(file).Some? && old(file).value.state == Ready);
        file == if !held && writes then Some(status) else old(file)
    {
      if live.state == Downloading { return live, true; }
      if file.Some? && file.value.state == Ready { return file.value, true; }
      if writes { file := Some(status); }
      return status, writes;
    }

    /** A reboot is granted only with the staging lock in hand and an update staged. */
    method ClaimReboot(lockFree: bool) returns (granted: bool)
      ensures granted <==> lockFree && Current(Value()).state == Ready
    {
      if !lockFree { return false; }
      var s := CurrentLocked();
      return s.state == Ready;
    }
  }

  // --- Runs ---

  datatype Event =
    | ClientGet
    | Advertise(status: Status)                     // the answer to /check, after its own poll
    | Claim(token: string)
    | Progress(done: int, total: int)
    | Complete(status: Status, writes: bool)
    | Poll(status: Status, writes: bool)
    | OtherPoll(status: Status, writes: bool)       // the timer's own process, with its own store

  function Step(consent: TokenOf, s: Store, e: Event): Store {
    match e
    case ClientGet => s.(advertised := Offered(Current(s)))
    case Advertise(status) => s.(advertised := Offered(status))
    case Claim(token) => if Claims(consent, s, token) then Claimed(s) else s
    case Progress(done, total) => Progressed(s, done, total)
    case Complete(status, writes) => Completed(s, status, writes)
    case Poll(status, writes) => Published(s, status, writes)
    case OtherPoll(status, writes) => s.(file := Published(Store(NONE, NONE, s.file), status, writes).file)
  }

  function Run(consent: TokenOf, s: Store, events: seq<Event>): Store {
    if events == [] then s
    else Step(consent, Run(consent, s, events[..|events| - 1]), events[|events| - 1])
  }

  /** The `k`th event of a run was a claim that was granted. */
  predicate Granted(consent: TokenOf, s: Store, events: seq<Event>, k: int) {
    0 <= k < |events| && events[k].Claim? && Claims(consent, Run(consent, s, events[..k]), events[k].token)
  }

  /** It put an offer before the user. */
  predicate Offers(consent: TokenOf, s: Store, events: seq<Event>, j: int, status: Status) {
    && 0 <= j < |events| && status.state == Available
    && (events[j] == Advertise(status) || (events[j].ClientGet? && Current(Run(consent, s, events[..j])) == status))
  }

  predicate Renews(e: Event) { e.ClientGet? || e.Advertise? }

  /** The offer standing at the end of a run was made at `j`, and since then nothing was
      offered, withdrawn or claimed. */
  ghost predicate StandsSince(consent: TokenOf, s: Store, events: seq<Event>, j: int, status: Status) {
    && Offers(consent, s, events, j, status)
    && forall i :: j < i < |events| ==> !Renews(events[i]) && !Granted(consent, s, events, i)
  }

  lemma {:induction false} OfferStands(consent: TokenOf, s: Store, events: seq<Event>) returns (j: int)
    requires s.advertised.state != Available
    requires Run(consent, s, events).advertised.state == Available
    ensures StandsSince(consent, s, events, j, Run(consent, s, events).advertised)
    decreases |events|
  {
    var n := |events| - 1;
    var before, e := events[..n], events[n];
    var b := Run(consent, s, before);
    if Renews(e) {
      j := n;
      assert events[..n] == before;
    } else {
      j := OfferStands(consent, s, before);
      assert events[..j] == before[..j];
      forall i | j < i < |events| ensures !Renews(events[i]) && !Granted(consent, s, events, i) {
        assert events[..i] == before[..if i < n then i else n];
        if i < n { assert !Renews(before[i]) && !Granted(consent, s, before, i); }
      }
    }
  }

  /** Each granted claim takes up the last offer made, which nothing has renewed or claimed in
      between; the offer named its manifest and the token was that manifest's. */
  lemma ClaimTakesLatestOffer(consent: TokenOf, s: Store, events: seq<Event>, k: nat) returns (j: int)
    requires s.advertised.state != Available && Granted(consent, s, events, k)
    ensures var claimed := Run(consent, s, events[..k]).advertised;
      && j < k && StandsSince(consent, s, events[..k], j, claimed)
      && claimed.digest != "" && events[k].token == consent(claimed.digest)
      && Run(consent, s, events[..k + 1]) == Claimed(Run(consent, s, events[..k]))
  {
    j := OfferStands(consent, s, events[..k]);
    assert events[..k + 1][..k] == events[..k];
  }

  /** So between two granted claims there was a new offer. */
  lemma OneClaimPerOffer(consent: TokenOf, s: Store, events: seq<Event>, i: nat, k: nat) returns (j: int)
    requires s.advertised.state != Available && i < k
    requires Granted(consent, s, events, i) && Granted(consent, s, events, k)
    ensures i < j < k && Renews(events[j])
  {
    j := ClaimTakesLatestOffer(consent, s, events, k);
    var before := events[..k];
    assert before[..i] == events[..i];
    if j < i { assert Granted(consent, s, before, i); }
    assert Offers(consent, s, before, j, Run(consent, s, before).advertised);
  }

  /** Staging under a granted claim accepts only the manifest that was on offer: whatever chains
      to the root key under the claimed digest is the manifest of the offer made at `j`, which was
      the last one, and the token the user gave is that manifest's. */
  lemma StagesWhatWasOffered(consent: TokenOf, s: Store, events: seq<Event>, k: nat, tr: Stage.Trust, root: Bytes,
                             feed: Stage.Feed, man: Stage.Manifest) returns (j: int, offer: Status)
    requires s.advertised.state != Available && Granted(consent, s, events, k)
    requires Stage.Chains(tr, root, feed, Run(consent, s, events[..k + 1]).live.digest, man)
    ensures j < k && StandsSince(consent, s, events[..k], j, offer) && events[k].token == consent(offer.digest)
    ensures feed.manifest.Some? && tr.isDigest(feed.manifest.value, offer.digest)
  {
    j := ClaimTakesLatestOffer(consent, s, events, k);
    offer := Run(consent, s, events[..k]).advertised;
  }

  // --- Outcomes ---

  /** The event can put something else on show. */
  predicate Changes(consent: TokenOf, s: Store, e: Event) {
    || e.Complete? || (e.Claim? && Claims(consent, s, e.token))
    || (e.Poll? && e.writes) || (e.OtherPoll? && e.writes)
  }

  /** Nothing does, but for polls over a staged update. */
  ghost predicate Quiet(consent: TokenOf, s: Store, events: seq<Event>, outcome: Status) {
    forall i :: 0 <= i < |events| && Changes(consent, Run(consent, s, events[..i]), events[i]) ==>
      outcome.state == Ready && (events[i].Poll? || events[i].OtherPoll?)
  }

  /** However the store stood, the written outcome of a download is what every status shows from
      then on, until something else is published, claimed or completed; no poll publishes over a
      staged update. */
  lemma {:induction false} OutcomeShown(consent: TokenOf, s: Store, outcome: Status, events: seq<Event>)
    requires outcome.state != Downloading
    requires Quiet(consent, Step(consent, s, Complete(outcome, true)), events, outcome)
    ensures var t := Run(consent, Step(consent, s, Complete(outcome, true)), events);
      Current(t) == outcome && t.live == NONE && t.file == Some(outcome)
    decreases |events|
  {
    if events != [] {
      var n := |events| - 1;
      var s1 := Step(consent, s, Complete(outcome, true));
      var before := events[..n];
      forall i | 0 <= i < n && Changes(consent, Run(consent, s1, before[..i]), before[i])
        ensures outcome.state == Ready && (before[i].Poll? || before[i].OtherPoll?)
      {
        assert before[..i] == events[..i];
        assert Changes(consent, Run(consent, s1, events[..i]), events[i]);
      }
      OutcomeShown(consent, s, outcome, before);
      assert Changes(consent, Run(consent, s1, events[..n]), events[n]) ==>
        outcome.state == Ready && (events[n].Poll? || events[n].OtherPoll?);
    }
  }

  /** After that, a reboot that finds the staging lock free is granted exactly for a staged update. */
  method RebootAfter(store: StatusStore, outcome: Status, lockFree: bool) returns (granted: bool)
    modifies store
    ensures granted <==> lockFree && outcome.state == Ready
  {
    store.Complete(outcome, true);
    granted := store.ClaimReboot(lockFree);
  }

  // --- Polling ---

  /** Neither a claim was granted nor a download ended. */
  ghost predicate Undisturbed(consent: TokenOf, s: Store, events: seq<Event>) {
    forall i :: 0 <= i < |events| ==> !events[i].Complete? && !Granted(consent, s, events, i)
  }

  /** While a download is live, until it ends or another one is claimed, every status shows it,
      and no poll of this process writes the file. */
  lemma {:induction false} PollsSpareDownload(consent: TokenOf, s: Store, events: seq<Event>)
    requires s.live.state == Downloading && Undisturbed(consent, s, events)
    ensures var t := Run(consent, s, events);
      && t.live == s.live.(percent := t.live.percent) && Current(t) == t.live
      && ((forall i :: 0 <= i < |events| ==> !events[i].OtherPoll?) ==> t.file == s.file)
    decreases |events|
  {
    if events != [] {
      var n := |events| - 1;
      var before := events[..n];
      forall i | 0 <= i < n ensures !before[i].Complete? && !Granted(consent, s, before, i) {
        assert before[..i] == events[..i];
        assert !events[i].Complete? && !Granted(consent, s, events, i);
      }
      PollsSpareDownload(consent, s, before);
      assert !events[n].Complete? && !Granted(consent, s, events, n);
      if forall i :: 0 <= i < |events| ==> !events[i].OtherPoll? {
        forall i | 0 <= i < n ensures !before[i].OtherPoll? { assert before[i] == events[i]; }
      }
    }
  }

  /** A staged update stays on show through any polls, of any process, and any claims. */
  lemma {:induction false} PollsSpareReady(consent: TokenOf, s: Store, events: seq<Event>)
    requires s.file.Some? && s.file.value.state == Ready
    requires forall e :: e in events ==> !e.Complete?
    ensures Run(consent, s, events).file == s.file
    decreases |events|
  {
    if events != [] {
      PollsSpareReady(consent, s, events[..|events| - 1]);
      assert events[|events| - 1] in events;
    }
  }

  /** A claim is granted while a download is live only when the offer came from /check: a
      status request withdraws every offer as long as a download is live. */
  lemma {:induction false} NoOfferWhileLive(consent: TokenOf, s: Store, events: seq<Event>)
    requires s.live.state == Downloading && s.advertised.state != Available
    requires forall e :: e in events ==> !e.Complete? && !e.Advertise?
    ensures var t := Run(consent, s, events); t.live.state == Downloading && t.advertised.state != Available
    decreases |events|
  {
    if events != [] {
      NoOfferWhileLive(consent, s, events[..|events| - 1]);
      assert events[|events| - 1] in events;
    }
  }

  // --- When a download is on show ---

  /** The last event that begins or ends a download is a granted claim at `i`. */
  ghost predicate LastBegan(consent: TokenOf, s: Store, events: seq<Event>, i: int) {
    && Granted(consent, s, events, i)
    && forall m :: i < m < |events| ==> !events[m].Complete? && !Granted(consent, s, events, m)
  }

  /** A run ends with a download live exactly when the last event that begins or ends one is a
      granted claim -- or there is none and one was live to begin with. */
  lemma {:induction false} LiveExactly(consent: TokenOf, s: Store, events: seq<Event>)
    ensures Run(consent, s, events).live.state == Downloading <==>
      (exists i :: LastBegan(consent, s, events, i)) || (Undisturbed(consent, s, events) && s.live.state == Downloading)
    decreases |events|
  {
    if events != [] {
      var n := |events| - 1;
      LiveExactly(consent, s, events[..n]);
      if Granted(consent, s, events, n) {
        assert LastBegan(consent, s, events, n);
      } else if !events[n].Complete? {
        QuietEvent(consent, s, events);
      }
    }
  }

  /** An event that neither begins nor ends a download decides nothing. */
  lemma QuietEvent(consent: TokenOf, s: Store, events: seq<Event>)
    requires events != []
    requires var n := |events| - 1; !events[n].Complete? && !Granted(consent, s, events, n)
    ensures var before := events[..|events| - 1];
      && (Undisturbed(consent, s, events) <==> Undisturbed(consent, s, before))
      && forall i :: LastBegan(consent, s, events, i) <==> LastBegan(consent, s, before, i)
  {
    var n := |events| - 1;
    var before := events[..n];
    forall i | 0 <= i < n
      ensures before[i] == events[i] && (Granted(consent, s, before, i) <==> Granted(consent, s, events, i))
    {
      assert before[..i] == events[..i];
    }
  }

  /** The offer claimed at `k` came at `j` from a check that was answered while the download begun
      at `i` was live. */
  ghost predicate LateOffer(consent: TokenOf, s: Store, events: seq<Event>, i: int, j: int, k: int) {
    && 0 <= i < j < k < |events| && events[k].Claim? && LastBegan(consent, s, events[..k], i)
    && events[j].Advertise? && events[j].status.state == Available
    && events[k].token != "" && events[k].token == Token(consent, events[j].status)
    && forall m :: j < m < k ==> !Renews(events[m])
  }

  /** A second download is claimed while one is live exactly then: nothing ended or was claimed
      since the first claim, and the last offer made is an answer to /check -- an answer that was
      under way when the first claim was granted. */
  lemma SecondClaimExactly(consent: TokenOf, s: Store, events: seq<Event>, k: nat)
    requires s.live.state != Downloading && s.advertised.state != Available && k < |events|
    ensures Granted(consent, s, events, k) && Run(consent, s, events[..k]).live.state == Downloading
      <==> exists i, j :: LateOffer(consent, s, events, i, j, k)
  {
    var before := events[..k];
    LiveExactly(consent, s, before);
    if Granted(consent, s, events, k) && Run(consent, s, before).live.state == Downloading {
      var i :| LastBegan(consent, s, before, i);
      var j := ClaimTakesLatestOffer(consent, s, events, k);
      OfferIsLate(consent, s, events, i, j, k);
    }
    forall i, j | LateOffer(consent, s, events, i, j, k) ensures Granted(consent, s, events, k) {
      LateOfferStands(consent, s, events, i, j, k);
    }
  }

  lemma OfferIsLate(consent: TokenOf, s: Store, events: seq<Event>, i: int, j: int, k: nat)
    requires k < |events| && Granted(consent, s, events, k) && LastBegan(consent, s, events[..k], i)
    requires j < k && StandsSince(consent, s, events[..k], j, Run(consent, s, events[..k]).advertised)
    ensures LateOffer(consent, s, events, i, j, k)
  {
    var before := events[..k];
    var offer := Run(consent, s, before).advertised;
    assert Offers(consent, s, before, j, offer);
    assert Granted(consent, s, before, i) && before[i].Claim?;
    assert forall m :: j < m < |before| ==> !Renews(before[m]) && !Granted(consent, s, before, m);
    assert i < j;
    if before[j].ClientGet? {
      LiveAt(consent, s, before, i, j);
    }
    forall m | j < m < k ensures !Renews(events[m]) { assert !Renews(before[m]); }
  }

  /** Between a claim and the end of its download a status request sees the download. */
  lemma LiveAt(consent: TokenOf, s: Store, events: seq<Event>, i: int, j: int)
    requires LastBegan(consent, s, events, i) && i < j <= |events|
    ensures Run(consent, s, events[..j]).live.state == Downloading
  {
    var upTo := events[..j];
    forall m | 0 <= m < j
      ensures upTo[m] == events[m] && (Granted(consent, s, upTo, m) <==> Granted(consent, s, events, m))
    {
      assert upTo[..m] == events[..m];
    }
    assert LastBegan(consent, s, upTo, i);
    LiveExactly(consent, s, upTo);
  }

  lemma LateOfferStands(consent: TokenOf, s: Store, events: seq<Event>, i: int, j: int, k: nat)
    requires k < |events| && LateOffer(consent, s, events, i, j, k)
    ensures Granted(consent, s, events, k)
  {
    var before := events[..k];
    assert before[..j + 1][..j] == before[..j];
    assert Run(consent, s, before[..j + 1]).advertised == events[j].status;
    forall m | j < m < k ensures !Renews(before[m]) && !Granted(consent, s, before, m) {
      assert before[m] == events[m] && !Renews(events[m]);
      assert i < m;
    }
    OfferKept(consent, s, before, j + 1);
    assert events[..k] == before;
  }

  lemma {:induction false} OfferKept(consent: TokenOf, s: Store, events: seq<Event>, j: nat)
    requires j <= |events|
    requires forall m :: j <= m < |events| ==> !Renews(events[m]) && !Granted(consent, s, events, m)
    ensures Run(consent, s, events).advertised == Run(consent, s, events[..j]).advertised
    decreases |events|
  {
    if j == |events| {
      assert events[..j] == events;
    } else {
      var n := |events| - 1;
      var before := events[..n];
      assert before[..j] == events[..j];
      forall m | j <= m < n ensures !Renews(before[m]) && !Granted(consent, s, before, m) {
        assert before[..m] == events[..m] && !Renews(events[m]) && !Granted(consent, s, events, m);
      }
      OfferKept(consent, s, before, j);
      assert !Renews(events[n]) && !Granted(consent, s, events, n);
    }
  }

  /** An offer from /check that was made before the claim but published after it can be claimed
      too. The second download finds staging busy; when it ends, the first one is no longer
      shown, though it is still running, and the next poll overwrites the status. */
  lemma SecondClaimHidesFirst(consent: TokenOf, s: Store, offer: Status, polled: Status)
    requires Claims(consent, s, consent(offer.digest)) && s.advertised == offer && polled.state == Available
    ensures var busy := Begun(offer);
      var t := Run(consent, s, [Claim(consent(offer.digest)), Advertise(offer), Claim(consent(offer.digest)),
                                Complete(busy, true), Poll(polled, true)]);
      t.live == NONE && Current(t) == polled
  {
  }
}
