// The cross-media credit ledger: a campaign's allowance, its reservations, the
// one-shot dispatch claim taken before each paid POST, and provider receipts.
module Campaign {
  import opened Prelude

  datatype Media = Audio | Image | Video

  datatype Allowance = Allowance(authorization: string, limit: nat)

  /** The columns fixed when an intent is reserved. */
  datatype Key = Key(id: string, campaign: string, request: string, media: Media, credits: nat, price: string)

  datatype Intent = Intent(key: Key, dispatched: bool)

  datatype Receipt = Receipt(intent: string, task: string, response: string)

  /** Observations are keyed by intent and response digest. */
  datatype Ledger = Ledger(
    campaigns: map<string, Allowance>,
    intents: seq<Intent>,
    receipts: seq<Receipt>,
    observations: map<(string, string), string>)

  predicate IsSha(s: string) {
    |s| == 64 && forall i :: 0 <= i < |s| ==> '0' <= s[i] <= '9' || 'a' <= s[i] <= 'f'
  }

  predicate IsTaskId(s: string) {
    1 <= |s| <= 240
    && forall i :: 0 <= i < |s| ==>
         'A' <= s[i] <= 'Z' || 'a' <= s[i] <= 'z' || '0' <= s[i] <= '9' || s[i] in "_.:-"
  }

  /** SUM(reserved_credits) over a campaign's rows, or over its dispatched rows. */
  function Credits(intents: seq<Intent>, campaign: string, dispatchedOnly: bool): nat {
    if intents == [] then 0
    else
      var last := intents[|intents| - 1];
      Credits(intents[..|intents| - 1], campaign, dispatchedOnly)
      + (if last.key.campaign == campaign && (dispatchedOnly ==> last.dispatched) then last.key.credits else 0)
  }

  /** The rows an "id = ? OR (campaign_id = ? AND request_sha256 = ?)" lookup may return. */
  predicate IntentMatches(row: Intent, key: Key) {
    row.key.id == key.id || (row.key.campaign == key.campaign && row.key.request == key.request)
  }

  function FirstIntent(intents: seq<Intent>, key: Key): Option<Intent> {
    if intents == [] then None
    else if IntentMatches(intents[0], key) then Some(intents[0])
    else FirstIntent(intents[1..], key)
  }

  predicate ReceiptMatches(row: Receipt, intent: string, task: string) {
    row.intent == intent || row.task == task
  }

  function FirstReceipt(receipts: seq<Receipt>, intent: string, task: string): Option<Receipt> {
    if receipts == [] then None
    else if ReceiptMatches(receipts[0], intent, task) then Some(receipts[0])
    else FirstReceipt(receipts[1..], intent, task)
  }

  // --------------------------------------------- transactions, as new ledgers

  /** Each answers whether the call returned; otherwise it raised and rolled back. */
  function Authorize(l: Ledger, campaign: string, authorization: string, limit: int): (Ledger, bool) {
    if !IsSha(authorization) || campaign == "" || limit <= 0 then (l, false)
    else if campaign in l.campaigns then (l, l.campaigns[campaign] == Allowance(authorization, limit))
    else (l.(campaigns := l.campaigns[campaign := Allowance(authorization, limit)]), true)
  }

  function Reserve(l: Ledger, key: Key): (Ledger, bool) {
    if !IsSha(key.id) || !IsSha(key.request) || !IsSha(key.price) || key.credits == 0 then (l, false)
    else if key.campaign !in l.campaigns then (l, false)
    else
      match FirstIntent(l.intents, key)
      case Some(prior) => (l, prior.key == key)
      case None =>
        if Credits(l.intents, key.campaign, false) + key.credits > l.campaigns[key.campaign].limit then (l, false)
        else (l.(intents := l.intents + [Intent(key, false)]), true)
  }

  predicate Claimable(row: Intent, campaign: string, intent: string, request: string, media: Option<Media>) {
    && row.key.campaign == campaign && row.key.id == intent && row.key.request == request && !row.dispatched
    && (media == None || media == Some(row.key.media))
  }

  /** UPDATE ... SET dispatched = 1 WHERE ... : the new rows and the row count. */
  function Dispatch(intents: seq<Intent>, campaign: string, intent: string, request: string, media: Option<Media>)
    : (seq<Intent>, nat)
  {
    if intents == [] then ([], 0)
    else
      var n := |intents| - 1;
      var (rows, count) := Dispatch(intents[..n], campaign, intent, request, media);
      if Claimable(intents[n], campaign, intent, request, media)
      then (rows + [intents[n].(dispatched := true)], count + 1)
      else (rows + [intents[n]], count)
  }

  function Claim(l: Ledger, campaign: string, intent: string, request: string, media: Option<Media>): (Ledger, bool) {
    var (rows, count) := Dispatch(l.intents, campaign, intent, request, media);
    if count != 1 then (l, false) else (l.(intents := rows), true)
  }

  function Accept(l: Ledger, campaign: string, receipt: Receipt): (Ledger, bool) {
    if !IsSha(receipt.response) || !IsTaskId(receipt.task) then (l, false)
    else if !exists i :: 0 <= i < |l.intents| && IsDispatched(l.intents[i], campaign, receipt.intent) then (l, false)
    else
      match FirstReceipt(l.receipts, receipt.intent, receipt.task)
      case Some(prior) => (l, prior == receipt)
      case None => (l.(receipts := l.receipts + [receipt]), true)
  }

  /** A provider task's progress: the task asked about is the one on the receipt
      of this campaign's intent, and INSERT OR IGNORE keeps the first report. */
  function Refresh(l: Ledger, campaign: string, intent: string, observedTask: string, response: string, report: string)
    : (Ledger, bool)
  {
    match AcceptedTask(l, campaign, intent)
    case None => (l, false)
    case Some(task) =>
      if observedTask != task then (l, false)
      else if (intent, response) in l.observations then (l, true)
      else (l.(observations := l.observations[(intent, response) := report]), true)
  }

  function AcceptedTask(l: Ledger, campaign: string, intent: string): Option<string> {
    if !exists i :: 0 <= i < |l.intents| && l.intents[i].key.id == intent && l.intents[i].key.campaign == campaign
    then None
    else TaskOf(l.receipts, intent)
  }

  function TaskOf(receipts: seq<Receipt>, intent: string): Option<string> {
    if receipts == [] then None
    else if receipts[0].intent == intent then Some(receipts[0].task)
    else TaskOf(receipts[1..], intent)
  }

  predicate IsDispatched(row: Intent, campaign: string, intent: string) {
    row.key.id == intent && row.key.campaign == campaign && row.dispatched
  }

  // --------------------------------------------------------- the SQLite tables

  class CampaignTables {
    var campaigns: map<string, Allowance>
    var intents: seq<Intent>
    var receipts: seq<Receipt>
    var observations: map<(string, string), string>

    function State(): Ledger
      reads this
    {
      Ledger(campaigns, intents, receipts, observations)
    }

    constructor ()
      ensures State() == Ledger(map[], [], [], map[])
    {
      campaigns := map[];
      intents := [];
      receipts := [];
      observations := map[];
    }

    method AuthorizeCampaign(campaign: string, authorization: string, limit: int) returns (ok: bool)
      modifies this
      ensures (State(), ok) == Authorize(old(State()), campaign, authorization, limit)
    {
      if !IsSha(authorization) || campaign == "" || limit <= 0 {
        return false;
      }
      if campaign in campaigns {
        return campaigns[campaign] == Allowance(authorization, limit);
      }
      campaigns := campaigns[campaign := Allowance(authorization, limit)];
      return true;
    }

    method FindIntent(key: Key) returns (r: Option<Intent>)
      ensures r == FirstIntent(intents, key)
    {
      for i := 0 to |intents|
        invariant FirstIntent(intents, key) == FirstIntent(intents[i..], key)
      {
        if intents[i].key.id == key.id
            || (intents[i].key.campaign == key.campaign && intents[i].key.request == key.request) {
          return Some(intents[i]);
        }
      }
      return None;
    }

    method ReservedCredits(campaign: string) returns (total: nat)
      ensures total == Credits(intents, campaign, false)
    {
      total := 0;
      for i := 0 to |intents|
        invariant total == Credits(intents[..i], campaign, false)
      {
        assert intents[..i + 1][..i] == intents[..i];
        if intents[i].key.campaign == campaign {
          total := total + intents[i].key.credits;
        }
      }
      assert intents[..|intents|] == intents;
    }

    method ReserveIntent(key: Key) returns (ok: bool)
      modifies this
      ensures (State(), ok) == Reserve(old(State()), key)
    {
      if !IsSha(key.id) || !IsSha(key.request) || !IsSha(key.price) || key.credits == 0 {
        return false;
      }
      if key.campaign !in campaigns {
        return false;
      }
      var prior := FindIntent(key);
      if prior.Some? {
        return prior.value.key == key;
      }
      var total := ReservedCredits(key.campaign);
      if total + key.credits > campaigns[key.campaign].limit {
        return false;
      }
      intents := intents + [Intent(key, false)];
      return true;
    }

    method ClaimDispatch(campaign: string, intent: string, request: string, media: Option<Media>) returns (ok: bool)
      modifies this
      ensures (State(), ok) == Claim(old(State()), campaign, intent, request, media)
    {
      var rows: seq<Intent> := [];
      var changed := 0;
      for i := 0 to |intents|
        invariant (rows, changed) == Dispatch(intents[..i], campaign, intent, request, media)
      {
        assert intents[..i + 1][..i] == intents[..i];
        if Claimable(intents[i], campaign, intent, request, media) {
          rows := rows + [intents[i].(dispatched := true)];
          changed := changed + 1;
        } else {
          rows := rows + [intents[i]];
        }
      }
      assert intents[..|intents|] == intents;
      if changed != 1 {
        return false;
      }
      intents := rows;
      return true;
    }

    method RecordAcceptance(campaign: string, receipt: Receipt) returns (ok: bool)
      modifies this
      ensures (State(), ok) == Accept(old(State()), campaign, receipt)
    {
      if !IsSha(receipt.response) || !IsTaskId(receipt.task) {
        return false;
      }
      var found := false;
      for i := 0 to |intents|
        invariant found <==> exists k :: 0 <= k < i && IsDispatched(intents[k], campaign, receipt.intent)
      {
        found := found || IsDispatched(intents[i], campaign, receipt.intent);
      }
      if !found {
        return false;
      }
      for i := 0 to |receipts|
        invariant FirstReceipt(receipts, receipt.intent, receipt.task)
            == FirstReceipt(receipts[i..], receipt.intent, receipt.task)
      {
        if receipts[i].intent == receipt.intent || receipts[i].task == receipt.task {
          return receipts[i] == receipt;
        }
      }
      receipts := receipts + [receipt];
      return true;
    }

    method RefreshTask(campaign: string, intent: string, observedTask: string, response: string, report: string)
      returns (ok: bool)
      modifies this
      ensures (State(), ok) == Refresh(old(State()), campaign, intent, observedTask, response, report)
    {
      var saved := AcceptedTask(State(), campaign, intent);
      if saved.None? || observedTask != saved.value {
        return false;
      }
      if (intent, response) !in observations {
        observations := observations[(intent, response) := report];
      }
      return true;
    }
  }

  // -------------------------------------------------- callers and the provider

  /** A claim taken but not yet spent on its POST, or spent. */
  datatype Claimed = Claimed(campaign: string, intent: string, request: string, credits: nat)

  datatype World = World(ledger: Ledger, pending: seq<Claimed>, posts: seq<Claimed>)

  datatype Action =
    | AuthorizeIt(campaign: string, authorization: string, limit: int)
    | ReserveIt(key: Key)
    | ClaimIt(campaign: string, intent: string, request: string, media: Option<Media>)
    | SendIt(i: nat)
    | AcceptIt(campaign: string, receipt: Receipt)
    | RefreshIt(campaign: string, intent: string, observedTask: string, response: string, report: string)
    | CallerDies(i: nat)
    | Restart

  const START := World(Ledger(map[], [], [], map[]), [], [])

  function CreditsOf(intents: seq<Intent>, id: string): nat {
    if intents == [] then 0 else if intents[0].key.id == id then intents[0].key.credits else CreditsOf(intents[1..], id)
  }

  function Remove<T>(s: seq<T>, i: nat): seq<T>
    requires i < |s|
  {
    s[..i] + s[i + 1..]
  }

  function Next(w: World, a: Action): World {
    match a
    case AuthorizeIt(c, sha, limit) => w.(ledger := Authorize(w.ledger, c, sha, limit).0)
    case ReserveIt(key) => w.(ledger := Reserve(w.ledger, key).0)
    case ClaimIt(c, intent, request, media) =>
      var (ledger, ok) := Claim(w.ledger, c, intent, request, media);
      if !ok then w
      else w.(ledger := ledger,
              pending := w.pending + [Claimed(c, intent, request, CreditsOf(w.ledger.intents, intent))])
    case SendIt(i) =>
      if i >= |w.pending| then w
      else w.(pending := Remove(w.pending, i), posts := w.posts + [w.pending[i]])
    case AcceptIt(c, receipt) => w.(ledger := Accept(w.ledger, c, receipt).0)
    case RefreshIt(c, intent, task, response, report) =>
      w.(ledger := Refresh(w.ledger, c, intent, task, response, report).0)
    case CallerDies(i) => if i >= |w.pending| then w else w.(pending := Remove(w.pending, i))
    case Restart => w.(pending := [])
  }

  function Run(actions: seq<Action>): World {
    if actions == [] then START else Next(Run(actions[..|actions| - 1]), actions[|actions| - 1])
  }

  // ----------------------------------------------------------------- invariant

  predicate UniqueIntents(intents: seq<Intent>) {
    forall i, j :: 0 <= i < |intents| && 0 <= j < |intents| && i != j ==>
      && intents[i].key.id != intents[j].key.id
      && (intents[i].key.campaign, intents[i].key.request) != (intents[j].key.campaign, intents[j].key.request)
  }

  predicate UniqueReceipts(receipts: seq<Receipt>) {
    forall i, j :: 0 <= i < |receipts| && 0 <= j < |receipts| && i != j ==>
      receipts[i].intent != receipts[j].intent && receipts[i].task != receipts[j].task
  }

  predicate WithinAllowance(l: Ledger) {
    && (forall i :: 0 <= i < |l.intents| ==> l.intents[i].key.campaign in l.campaigns)
    && (forall c :: c in l.campaigns ==> Credits(l.intents, c, false) <= l.campaigns[c].limit)
  }

  predicate ReceiptsDispatched(l: Ledger) {
    forall i :: 0 <= i < |l.receipts| ==> DispatchedId(l.intents, l.receipts[i].intent)
  }

  predicate DispatchedId(intents: seq<Intent>, id: string) {
    exists i :: 0 <= i < |intents| && intents[i].key.id == id && intents[i].dispatched
  }

  predicate HasReceipt(receipts: seq<Receipt>, intent: string) {
    exists i :: 0 <= i < |receipts| && receipts[i].intent == intent
  }

  predicate ObservationsAccepted(l: Ledger) {
    forall k :: k in l.observations ==> HasReceipt(l.receipts, k.0)
  }

  predicate SoundLedger(l: Ledger) {
    && UniqueIntents(l.intents) && UniqueReceipts(l.receipts) && WithinAllowance(l) && ReceiptsDispatched(l)
    && ObservationsAccepted(l)
  }

  function Spent(claims: seq<Claimed>, campaign: string): nat {
    if claims == [] then 0
    else Spent(claims[..|claims| - 1], campaign)
         + (if claims[|claims| - 1].campaign == campaign then claims[|claims| - 1].credits else 0)
  }

  function Times(claims: seq<Claimed>, id: string): nat {
    if claims == [] then 0
    else Times(claims[..|claims| - 1], id) + (if claims[|claims| - 1].intent == id then 1 else 0)
  }

  ghost predicate ClaimsSound(w: World) {
    && (forall c: string :: Spent(w.posts, c) + Spent(w.pending, c) <= Credits(w.ledger.intents, c, true))
    && (forall id: string :: Times(w.posts, id) + Times(w.pending, id)
                             <= if DispatchedId(w.ledger.intents, id) then 1 else 0)
  }

  ghost predicate Sound(w: World) {
    SoundLedger(w.ledger) && ClaimsSound(w)
  }

  // --------------------------------------------------------------- preservation

  lemma {:induction false} FirstIntentIs(intents: seq<Intent>, key: Key)
    ensures FirstIntent(intents, key).Some? ==>
              exists i :: 0 <= i < |intents| && intents[i] == FirstIntent(intents, key).value
                  && IntentMatches(intents[i], key)
    ensures FirstIntent(intents, key).None? ==> forall i :: 0 <= i < |intents| ==> !IntentMatches(intents[i], key)
  {
    if intents != [] && !IntentMatches(intents[0], key) {
      FirstIntentIs(intents[1..], key);
      if FirstIntent(intents[1..], key).Some? {
        var i :| 0 <= i < |intents[1..]| && intents[1..][i] == FirstIntent(intents[1..], key).value
                 && IntentMatches(intents[1..][i], key);
      } else {
        forall i | 0 <= i < |intents| ensures !IntentMatches(intents[i], key) {
          if i > 0 { assert intents[i] == intents[1..][i - 1]; }
        }
      }
    }
  }

  lemma {:induction false} FirstReceiptIs(receipts: seq<Receipt>, intent: string, task: string)
    ensures FirstReceipt(receipts, intent, task).None? ==>
              forall i :: 0 <= i < |receipts| ==> !ReceiptMatches(receipts[i], intent, task)
  {
    if receipts != [] && !ReceiptMatches(receipts[0], intent, task) {
      FirstReceiptIs(receipts[1..], intent, task);
      if FirstReceipt(receipts[1..], intent, task).None? {
        forall i | 0 <= i < |receipts| ensures !ReceiptMatches(receipts[i], intent, task) {
          if i > 0 { assert receipts[i] == receipts[1..][i - 1]; }
        }
      }
    }
  }

  lemma {:induction false} UnknownCampaignHasNoCredits(intents: seq<Intent>, c: string)
    requires forall i :: 0 <= i < |intents| ==> intents[i].key.campaign != c
    ensures Credits(intents, c, false) == 0
  {
    if intents != [] {
      UnknownCampaignHasNoCredits(intents[..|intents| - 1], c);
    }
  }

  lemma AuthorizeKeepsSound(l: Ledger, c: string, sha: string, limit: int)
    requires SoundLedger(l)
    ensures SoundLedger(Authorize(l, c, sha, limit).0)
  {
    if c !in l.campaigns {
      UnknownCampaignHasNoCredits(l.intents, c);
    }
  }

  lemma {:induction false} NewRowKeepsCredits(intents: seq<Intent>, key: Key)
    ensures forall c: string :: Credits(intents + [Intent(key, false)], c, true) == Credits(intents, c, true)
    ensures forall c: string :: Credits(intents + [Intent(key, false)], c, false)
                                == Credits(intents, c, false) + (if key.campaign == c then key.credits else 0)
  {
  }

  lemma NewRowKeepsDispatched(intents: seq<Intent>, key: Key)
    ensures forall id: string :: DispatchedId(intents, id) <==> DispatchedId(intents + [Intent(key, false)], id)
  {
    forall id: string | DispatchedId(intents, id) ensures DispatchedId(intents + [Intent(key, false)], id) {
      var i :| 0 <= i < |intents| && intents[i].key.id == id && intents[i].dispatched;
      assert (intents + [Intent(key, false)])[i] == intents[i];
    }
  }

  lemma NewRowKeepsAllowance(l: Ledger, key: Key)
    requires WithinAllowance(l) && key.campaign in l.campaigns
    requires Credits(l.intents, key.campaign, false) + key.credits <= l.campaigns[key.campaign].limit
    ensures WithinAllowance(l.(intents := l.intents + [Intent(key, false)]))
  {
  }

  lemma {:induction false} NewRowKeepsUnique(intents: seq<Intent>, key: Key)
    requires UniqueIntents(intents) && FirstIntent(intents, key).None?
    ensures UniqueIntents(intents + [Intent(key, false)])
  {
    FirstIntentIs(intents, key);
    forall i | 0 <= i < |intents| ensures !IntentMatches(intents[i], key) {}
  }

  lemma ReserveKeepsSound(l: Ledger, key: Key)
    requires SoundLedger(l)
    ensures SoundLedger(Reserve(l, key).0)
    ensures forall c: string :: Credits(Reserve(l, key).0.intents, c, true) == Credits(l.intents, c, true)
    ensures forall id: string :: DispatchedId(l.intents, id) <==> DispatchedId(Reserve(l, key).0.intents, id)
  {
    var (l', ok) := Reserve(l, key);
    if ok && FirstIntent(l.intents, key).None? {
      NewRowKeepsCredits(l.intents, key);
      NewRowKeepsDispatched(l.intents, key);
      NewRowKeepsAllowance(l, key);
      NewRowKeepsUnique(l.intents, key);
    }
  }

  lemma {:induction false} DispatchRows(intents: seq<Intent>, campaign: string, intent: string, request: string,
                                        media: Option<Media>)
    ensures var (rows, count) := Dispatch(intents, campaign, intent, request, media);
            && |rows| == |intents|
            && (forall i :: 0 <= i < |rows| ==> rows[i].key == intents[i].key)
            && (forall i :: 0 <= i < |rows| ==>
                  rows[i].dispatched == (intents[i].dispatched
                                         || Claimable(intents[i], campaign, intent, request, media)))
            && (count > 0 <==>
                exists i :: 0 <= i < |intents| && Claimable(intents[i], campaign, intent, request, media))
  {
    if intents != [] {
      var n := |intents| - 1;
      DispatchRows(intents[..n], campaign, intent, request, media);
      var count := Dispatch(intents[..n], campaign, intent, request, media).1;
      if count > 0 {
        var i :| 0 <= i < n && Claimable(intents[..n][i], campaign, intent, request, media);
      }
    }
  }

  lemma {:induction false} DispatchCount(intents: seq<Intent>, campaign: string, intent: string, request: string,
                                         media: Option<Media>)
    requires UniqueIntents(intents)
    ensures Dispatch(intents, campaign, intent, request, media).1 <= 1
  {
    if intents != [] {
      var n := |intents| - 1;
      DispatchCount(intents[..n], campaign, intent, request, media);
      DispatchRows(intents[..n], campaign, intent, request, media);
    }
  }

  lemma {:induction false} ReservedByKey(a: seq<Intent>, b: seq<Intent>, c: string)
    requires |a| == |b| && forall i :: 0 <= i < |a| ==> a[i].key == b[i].key
    ensures Credits(a, c, false) == Credits(b, c, false)
  {
    if a != [] {
      ReservedByKey(a[..|a| - 1], b[..|b| - 1], c);
    }
  }

  lemma EarlierRowSetsThePrice(intents: seq<Intent>, n: nat, campaign: string, intent: string, request: string,
                               media: Option<Media>)
    requires UniqueIntents(intents) && n <= |intents| && Dispatch(intents[..n], campaign, intent, request, media).1 > 0
    ensures CreditsOf(intents[..n], intent) == CreditsOf(intents, intent)
  {
    DispatchRows(intents[..n], campaign, intent, request, media);
    var i :| 0 <= i < n && Claimable(intents[..n][i], campaign, intent, request, media);
    CreditsOfRow(intents, i);
    CreditsOfRow(intents[..n], i);
  }

  lemma {:induction false} DispatchCredits(intents: seq<Intent>, campaign: string, intent: string, request: string,
                                           media: Option<Media>, c: string)
    requires UniqueIntents(intents)
    ensures var (rows, count) := Dispatch(intents, campaign, intent, request, media);
            Credits(rows, c, true)
            == Credits(intents, c, true) + (if count == 1 && c == campaign then CreditsOf(intents, intent) else 0)
  {
    if intents != [] {
      var n := |intents| - 1;
      DispatchCredits(intents[..n], campaign, intent, request, media, c);
      DispatchCount(intents, campaign, intent, request, media);
      var (rows, count) := Dispatch(intents[..n], campaign, intent, request, media);
      var all := Dispatch(intents, campaign, intent, request, media).0;
      if count > 0 {
        EarlierRowSetsThePrice(intents, n, campaign, intent, request, media);
      }
      if Claimable(intents[n], campaign, intent, request, media) {
        CreditsOfRow(intents, n);
      }
    }
  }

  /** A successful claim marks exactly one row, which was not marked before. */
  lemma DispatchIs(intents: seq<Intent>, campaign: string, intent: string, request: string, media: Option<Media>)
    requires UniqueIntents(intents)
    ensures var (rows, count) := Dispatch(intents, campaign, intent, request, media);
            && |rows| == |intents|
            && (forall i :: 0 <= i < |rows| ==> rows[i].key == intents[i].key)
            && (forall i :: 0 <= i < |rows| ==>
                  rows[i].dispatched == (intents[i].dispatched
                                         || Claimable(intents[i], campaign, intent, request, media)))
            && (count > 0 <==>
                exists i :: 0 <= i < |intents| && Claimable(intents[i], campaign, intent, request, media))
            && count <= 1
            && (forall c :: Credits(rows, c, false) == Credits(intents, c, false))
            && (forall c :: Credits(rows, c, true)
                            == Credits(intents, c, true)
                               + (if count == 1 && c == campaign then CreditsOf(intents, intent) else 0))
  {
    DispatchRows(intents, campaign, intent, request, media);
    var (rows, count) := Dispatch(intents, campaign, intent, request, media);
    forall c: string
      ensures Credits(rows, c, false) == Credits(intents, c, false)
      ensures Credits(rows, c, true)
              == Credits(intents, c, true) + (if count == 1 && c == campaign then CreditsOf(intents, intent) else 0)
    {
      ReservedByKey(rows, intents, c);
      DispatchCredits(intents, campaign, intent, request, media, c);
    }
  }

  lemma {:induction false} CreditsOfRow(intents: seq<Intent>, i: nat)
    requires i < |intents| && UniqueIntents(intents)
    ensures CreditsOf(intents, intents[i].key.id) == intents[i].key.credits
  {
    if i > 0 {
      CreditsOfRow(intents[1..], i - 1);
    }
  }

  lemma ClaimMarks(l: Ledger, campaign: string, intent: string, request: string, media: Option<Media>)
    requires UniqueIntents(l.intents)
    ensures var (l', ok) := Claim(l, campaign, intent, request, media);
            && (ok ==> !DispatchedId(l.intents, intent) && DispatchedId(l'.intents, intent))
            && (forall id :: DispatchedId(l.intents, id) ==> DispatchedId(l'.intents, id))
  {
    DispatchIs(l.intents, campaign, intent, request, media);
    var (l', ok) := Claim(l, campaign, intent, request, media);
    forall id | DispatchedId(l.intents, id) ensures DispatchedId(l'.intents, id) {
      var i :| 0 <= i < |l.intents| && l.intents[i].key.id == id && l.intents[i].dispatched;
    }
    if ok {
      var i :| 0 <= i < |l.intents| && Claimable(l.intents[i], campaign, intent, request, media);
    }
  }

  lemma ClaimKeepsSound(l: Ledger, campaign: string, intent: string, request: string, media: Option<Media>)
    requires SoundLedger(l)
    ensures var (l', ok) := Claim(l, campaign, intent, request, media);
            && SoundLedger(l')
            && (forall c :: Credits(l'.intents, c, true)
                            == Credits(l.intents, c, true)
                               + (if ok && c == campaign then CreditsOf(l.intents, intent) else 0))
  {
    DispatchIs(l.intents, campaign, intent, request, media);
  }

  lemma AcceptKeepsSound(l: Ledger, campaign: string, receipt: Receipt)
    requires SoundLedger(l)
    ensures SoundLedger(Accept(l, campaign, receipt).0)
  {
    FirstReceiptIs(l.receipts, receipt.intent, receipt.task);
    var l' := Accept(l, campaign, receipt).0;
    if l' != l {
      var i :| 0 <= i < |l.intents| && IsDispatched(l.intents[i], campaign, receipt.intent);
      assert DispatchedId(l.intents, receipt.intent);
      forall k | k in l.observations ensures HasReceipt(l'.receipts, k.0) {
        var j :| 0 <= j < |l.receipts| && l.receipts[j].intent == k.0;
        assert l'.receipts[j].intent == k.0;
      }
    }
  }

  lemma {:induction false} TaskOfIs(receipts: seq<Receipt>, intent: string)
    ensures TaskOf(receipts, intent).Some? ==> HasReceipt(receipts, intent)
  {
    if receipts != [] {
      if receipts[0].intent != intent {
        TaskOfIs(receipts[1..], intent);
        if TaskOf(receipts[1..], intent).Some? {
          var i :| 0 <= i < |receipts[1..]| && receipts[1..][i].intent == intent;
        }
      }
    }
  }

  lemma {:induction false} TotalsOfConcat(a: seq<Claimed>, b: seq<Claimed>)
    ensures forall c: string :: Spent(a + b, c) == Spent(a, c) + Spent(b, c)
    ensures forall id: string :: Times(a + b, id) == Times(a, id) + Times(b, id)
  {
    if b == [] {
      assert a + b == a;
    } else {
      TotalsOfConcat(a, b[..|b| - 1]);
      assert (a + b)[..|a + b| - 1] == a + b[..|b| - 1];
    }
  }

  lemma {:induction false} TotalsOfRemove(s: seq<Claimed>, i: nat)
    requires i < |s|
    ensures forall c: string :: Spent(s, c) == Spent(Remove(s, i), c) + Spent([s[i]], c)
    ensures forall id: string :: Times(s, id) == Times(Remove(s, i), id) + Times([s[i]], id)
  {
    TotalsOfConcat(s[..i] + [s[i]], s[i + 1..]);
    TotalsOfConcat(s[..i], s[i + 1..]);
    assert s == s[..i] + [s[i]] + s[i + 1..];
  }

  lemma ClaimStepKeepsSound(w: World, campaign: string, intent: string, request: string, media: Option<Media>)
    requires Sound(w)
    ensures Sound(Next(w, ClaimIt(campaign, intent, request, media)))
  {
    ClaimKeepsSound(w.ledger, campaign, intent, request, media);
    ClaimMarks(w.ledger, campaign, intent, request, media);
    var (_, ok) := Claim(w.ledger, campaign, intent, request, media);
    if ok {
      var one := Claimed(campaign, intent, request, CreditsOf(w.ledger.intents, intent));
      TotalsOfConcat(w.pending, [one]);
    }
  }

  lemma SendKeepsSound(w: World, i: nat)
    requires Sound(w)
    ensures Sound(Next(w, SendIt(i)))
  {
    if i < |w.pending| {
      TotalsOfRemove(w.pending, i);
    }
  }

  lemma CallerDiesKeepsSound(w: World, i: nat)
    requires Sound(w)
    ensures Sound(Next(w, CallerDies(i))) && Sound(Next(w, Restart))
  {
    if i < |w.pending| {
      TotalsOfRemove(w.pending, i);
    }
  }

  lemma RefreshKeepsSound(l: Ledger, campaign: string, intent: string, task: string, response: string, report: string)
    requires SoundLedger(l)
    ensures SoundLedger(Refresh(l, campaign, intent, task, response, report).0)
  {
    TaskOfIs(l.receipts, intent);
  }

  lemma StepKeepsSound(w: World, a: Action)
    requires Sound(w)
    ensures Sound(Next(w, a))
  {
    match a
    case AuthorizeIt(c, sha, limit) => AuthorizeKeepsSound(w.ledger, c, sha, limit);
    case ReserveIt(key) => ReserveKeepsSound(w.ledger, key);
    case ClaimIt(c, intent, request, media) => ClaimStepKeepsSound(w, c, intent, request, media);
    case SendIt(i) => SendKeepsSound(w, i);
    case AcceptIt(c, receipt) => AcceptKeepsSound(w.ledger, c, receipt);
    case RefreshIt(c, intent, task, response, report) => RefreshKeepsSound(w.ledger, c, intent, task, response, report);
    case CallerDies(i) => CallerDiesKeepsSound(w, i);
    case Restart => CallerDiesKeepsSound(w, 0);
  }

  lemma {:induction false} EveryRunIsSound(actions: seq<Action>)
    ensures Sound(Run(actions))
  {
    if actions != [] {
      EveryRunIsSound(actions[..|actions| - 1]);
      StepKeepsSound(Run(actions[..|actions| - 1]), actions[|actions| - 1]);
    }
  }

  // --------------------------------------------------------------- main results

  lemma {:induction false} DispatchedWithinReserved(intents: seq<Intent>, c: string)
    ensures Credits(intents, c, true) <= Credits(intents, c, false)
  {
    if intents != [] {
      DispatchedWithinReserved(intents[..|intents| - 1], c);
    }
  }

  /** In every reachable state: credits of everything POSTed, of everything
      dispatched, of everything reserved, and the allowance, in that order. */
  lemma {:induction false} CreditsStayWithinAllowance(actions: seq<Action>, c: string)
    requires c in Run(actions).ledger.campaigns
    ensures var w := Run(actions);
            Spent(w.posts, c) <= Credits(w.ledger.intents, c, true)
            <= Credits(w.ledger.intents, c, false) <= w.ledger.campaigns[c].limit
  {
    EveryRunIsSound(actions);
    DispatchedWithinReserved(Run(actions).ledger.intents, c);
  }

  /** No intent is ever POSTed twice, and none without being marked dispatched. */
  lemma {:induction false} OnePostPerIntent(actions: seq<Action>, id: string)
    ensures Times(Run(actions).posts, id) <= 1
    ensures Times(Run(actions).posts, id) == 1 ==> DispatchedId(Run(actions).ledger.intents, id)
  {
    EveryRunIsSound(actions);
  }

  /** Row i is this campaign and request, already dispatched. */
  predicate Spoken(l: Ledger, campaign: string, request: string, i: nat) {
    && i < |l.intents| && l.intents[i].dispatched
    && l.intents[i].key.campaign == campaign && l.intents[i].key.request == request
  }

  lemma ClaimSpeaks(before: seq<Action>, campaign: string, request: string, first: string, media: Option<Media>)
    returns (i: nat)
    requires Claim(Run(before).ledger, campaign, first, request, media).1
    ensures Spoken(Run(before + [ClaimIt(campaign, first, request, media)]).ledger, campaign, request, i)
  {
    var start := before + [ClaimIt(campaign, first, request, media)];
    var l := Run(before).ledger;
    EveryRunIsSound(before);
    DispatchIs(l.intents, campaign, first, request, media);
    i :| 0 <= i < |l.intents| && Claimable(l.intents[i], campaign, first, request, media);
    assert start[..|before|] == before;
  }

  lemma SpokenIsRefused(actions: seq<Action>, campaign: string, request: string, i: nat, second: string,
                        media: Option<Media>)
    requires Spoken(Run(actions).ledger, campaign, request, i)
    ensures !Claim(Run(actions).ledger, campaign, second, request, media).1
  {
    EveryRunIsSound(actions);
    DispatchIs(Run(actions).ledger.intents, campaign, second, request, media);
  }

  /** After a claim succeeds, every later claim of that campaign and request fails,
      whatever happens in between. */
  lemma ClaimSucceedsOnce(before: seq<Action>, more: seq<Action>, campaign: string, request: string,
                          first: string, media: Option<Media>, second: string, media': Option<Media>)
    requires Claim(Run(before).ledger, campaign, first, request, media).1
    ensures var after := before + [ClaimIt(campaign, first, request, media)] + more;
            !Claim(Run(after).ledger, campaign, second, request, media').1
  {
    var start := before + [ClaimIt(campaign, first, request, media)];
    var i := ClaimSpeaks(before, campaign, request, first, media);
    LedgerGrows(start, more);
    SpokenIsRefused(start + more, campaign, request, i, second, media');
  }

  lemma {:induction false} RunSplit(start: seq<Action>, more: seq<Action>)
    requires more != []
    ensures Run(start + more) == Next(Run(start + more[..|more| - 1]), more[|more| - 1])
  {
    assert (start + more)[..|start + more| - 1] == start + more[..|more| - 1];
  }

  /** What a step may do to rows already there. */
  predicate Grows(l: Ledger, l': Ledger) {
    && (forall c :: c in l.campaigns ==> c in l'.campaigns && l'.campaigns[c] == l.campaigns[c])
    && |l.intents| <= |l'.intents|
    && (forall i :: 0 <= i < |l.intents| ==>
          l'.intents[i].key == l.intents[i].key && (l.intents[i].dispatched ==> l'.intents[i].dispatched))
    && l.receipts <= l'.receipts
    && (forall k :: k in l.observations ==> k in l'.observations && l'.observations[k] == l.observations[k])
  }

  lemma ClaimGrows(l: Ledger, campaign: string, intent: string, request: string, media: Option<Media>)
    ensures Grows(l, Claim(l, campaign, intent, request, media).0)
  {
    DispatchRows(l.intents, campaign, intent, request, media);
  }

  lemma NextGrows(w: World, a: Action)
    ensures Grows(w.ledger, Next(w, a).ledger)
  {
    match a
    case AuthorizeIt(_, _, _) =>
    case ReserveIt(_) =>
    case ClaimIt(c, intent, request, media) => ClaimGrows(w.ledger, c, intent, request, media);
    case SendIt(_) =>
    case AcceptIt(_, _) =>
    case RefreshIt(_, _, _, _, _) =>
    case CallerDies(_) =>
    case Restart =>
  }

  lemma {:induction false} LedgerGrows(start: seq<Action>, more: seq<Action>)
    ensures Grows(Run(start).ledger, Run(start + more).ledger)
  {
    if more == [] {
      assert start + more == start;
    } else {
      var before := Run(start + more[..|more| - 1]);
      LedgerGrows(start, more[..|more| - 1]);
      RunSplit(start, more);
      NextGrows(before, more[|more| - 1]);
    }
  }

  /** Receipts pair intents and provider tasks one to one, only for dispatched intents. */
  lemma {:induction false} ReceiptsPairOneToOne(actions: seq<Action>, i: nat, j: nat)
    requires i < |Run(actions).ledger.receipts| && j < |Run(actions).ledger.receipts|
    ensures var l := Run(actions).ledger;
            && DispatchedId(l.intents, l.receipts[i].intent)
            && (l.receipts[i].intent == l.receipts[j].intent <==> l.receipts[i].task == l.receipts[j].task)
            && (l.receipts[i].intent == l.receipts[j].intent ==> i == j)
  {
    EveryRunIsSound(actions);
  }

  /** Whichever matching row SQLite returns for the OR lookup, the verdict is the
      same, for reservations and for receipts. */
  lemma AnyIntentRowGivesTheVerdict(actions: seq<Action>, key: Key, i: nat, j: nat)
    requires i < |Run(actions).ledger.intents| && j < |Run(actions).ledger.intents|
    requires IntentMatches(Run(actions).ledger.intents[i], key) && IntentMatches(Run(actions).ledger.intents[j], key)
    ensures Run(actions).ledger.intents[i].key == key <==> Run(actions).ledger.intents[j].key == key
  {
    EveryRunIsSound(actions);
  }

  lemma AnyReceiptRowGivesTheVerdict(actions: seq<Action>, receipt: Receipt, i: nat, j: nat)
    requires i < |Run(actions).ledger.receipts| && j < |Run(actions).ledger.receipts|
    requires ReceiptMatches(Run(actions).ledger.receipts[i], receipt.intent, receipt.task)
    requires ReceiptMatches(Run(actions).ledger.receipts[j], receipt.intent, receipt.task)
    ensures Run(actions).ledger.receipts[i] == receipt <==> Run(actions).ledger.receipts[j] == receipt
  {
    EveryRunIsSound(actions);
  }

  /** An authorization, once given, keeps its hash and its limit for ever. */
  lemma {:induction false} AllowanceIsPermanent(start: seq<Action>, more: seq<Action>, c: string)
    requires c in Run(start).ledger.campaigns
    ensures c in Run(start + more).ledger.campaigns
    ensures Run(start + more).ledger.campaigns[c] == Run(start).ledger.campaigns[c]
  {
    LedgerGrows(start, more);
  }

  /** Progress reports exist only for accepted intents, and a stored report for a
      response digest is never replaced. */
  lemma {:induction false} ReportsAreKept(start: seq<Action>, more: seq<Action>, key: (string, string))
    requires key in Run(start).ledger.observations
    ensures key in Run(start + more).ledger.observations
    ensures Run(start + more).ledger.observations[key] == Run(start).ledger.observations[key]
    ensures HasReceipt(Run(start + more).ledger.receipts, key.0)
  {
    LedgerGrows(start, more);
    EveryRunIsSound(start + more);
  }

  // ------------------------------------------------- the verdicts, row by row

  predicate HexDigest(s: string) {
    |s| == 64 && forall c :: c in s ==> c in "0123456789abcdef"
  }

  predicate TaskName(s: string) {
    1 <= |s| <= 240
    && forall c :: c in s ==> c in "0123456789_.:-" || 'A' <= c <= 'Z' || 'a' <= c <= 'z'
  }

  lemma HexDigestIs(s: string)
    ensures IsSha(s) <==> HexDigest(s)
  {
    if IsSha(s) {
      forall c | c in s ensures c in "0123456789abcdef" {
        var i :| 0 <= i < |s| && s[i] == c;
        HexDigitIs(c);
      }
    }
    if HexDigest(s) {
      forall i | 0 <= i < |s| ensures '0' <= s[i] <= '9' || 'a' <= s[i] <= 'f' { assert s[i] in s; }
    }
  }

  lemma HexDigitIs(c: char)
    ensures c in "0123456789abcdef" <==> '0' <= c <= '9' || 'a' <= c <= 'f'
  {
    if '0' <= c <= '9' {
      assert "0123456789abcdef"[c as int - '0' as int] == c;
    } else if 'a' <= c <= 'f' {
      assert "0123456789abcdef"[10 + c as int - 'a' as int] == c;
    }
  }

  lemma TaskNameIs(s: string)
    ensures IsTaskId(s) <==> TaskName(s)
  {
    if IsTaskId(s) {
      forall c | c in s ensures c in "0123456789_.:-" || 'A' <= c <= 'Z' || 'a' <= c <= 'z' {
        var i :| 0 <= i < |s| && s[i] == c;
        DigitOrMark(c);
      }
    }
    if TaskName(s) {
      forall i | 0 <= i < |s|
        ensures 'A' <= s[i] <= 'Z' || 'a' <= s[i] <= 'z' || '0' <= s[i] <= '9' || s[i] in "_.:-"
      {
        assert s[i] in s;
        DigitOrMark(s[i]);
      }
    }
  }

  lemma DigitOrMark(c: char)
    ensures c in "0123456789_.:-" <==> '0' <= c <= '9' || c in "_.:-"
  {
    if '0' <= c <= '9' {
      assert "0123456789_.:-"[c as int - '0' as int] == c;
    }
    assert "0123456789_.:-"[10..] == "_.:-";
  }

  /** The fields `reserve` insists on. */
  predicate WellFormed(key: Key) {
    HexDigest(key.id) && HexDigest(key.request) && HexDigest(key.price) && key.credits > 0
  }

  predicate RowsWellFormed(l: Ledger) {
    && (forall c :: c in l.campaigns ==>
          c != "" && HexDigest(l.campaigns[c].authorization) && l.campaigns[c].limit > 0)
    && (forall i :: 0 <= i < |l.intents| ==> WellFormed(l.intents[i].key))
    && (forall i :: 0 <= i < |l.receipts| ==> HexDigest(l.receipts[i].response) && TaskName(l.receipts[i].task))
  }

  lemma NextKeepsRowsWellFormed(w: World, a: Action)
    requires RowsWellFormed(w.ledger)
    ensures RowsWellFormed(Next(w, a).ledger)
  {
    match a
    case AuthorizeIt(_, sha, _) => HexDigestIs(sha);
    case ReserveIt(key) =>
      HexDigestIs(key.id);
      HexDigestIs(key.request);
      HexDigestIs(key.price);
    case ClaimIt(c, intent, request, media) => DispatchRows(w.ledger.intents, c, intent, request, media);
    case AcceptIt(_, receipt) =>
      HexDigestIs(receipt.response);
      TaskNameIs(receipt.task);
    case _ =>
  }

  lemma {:induction false} EveryRowIsWellFormed(actions: seq<Action>)
    ensures RowsWellFormed(Run(actions).ledger)
  {
    if actions != [] {
      EveryRowIsWellFormed(actions[..|actions| - 1]);
      NextKeepsRowsWellFormed(Run(actions[..|actions| - 1]), actions[|actions| - 1]);
    }
  }

  /** An allowance is given once: an exact repeat returns, any other is refused, and
      neither changes anything. */
  lemma AuthorizeVerdict(actions: seq<Action>, campaign: string, authorization: string, limit: int)
    ensures var l := Run(actions).ledger;
            && (campaign in l.campaigns ==>
                  Authorize(l, campaign, authorization, limit)
                  == (l, l.campaigns[campaign].authorization == authorization && l.campaigns[campaign].limit == limit))
            && (campaign !in l.campaigns ==>
                  Authorize(l, campaign, authorization, limit)
                  == (if campaign != "" && HexDigest(authorization) && limit > 0
                      then (l.(campaigns := l.campaigns[campaign := Allowance(authorization, limit)]), true)
                      else (l, false)))
  {
    EveryRowIsWellFormed(actions);
    HexDigestIs(authorization);
  }

  /** What each row reserves of the campaign's allowance. */
  function Reservations(intents: seq<Intent>, campaign: string): seq<int> {
    seq(|intents|,
        i requires 0 <= i < |intents| => if intents[i].key.campaign == campaign then intents[i].key.credits else 0)
  }

  lemma {:induction false} ReservedIsTheSum(intents: seq<Intent>, campaign: string)
    ensures Credits(intents, campaign, false) == Sum(Reservations(intents, campaign))
  {
    if intents != [] {
      var before := intents[..|intents| - 1];
      ReservedIsTheSum(before, campaign);
      assert Reservations(intents, campaign)[..|before|] == Reservations(before, campaign);
    }
  }

  /** An intent under the same id, or the same campaign and request, answers the call:
      an exact repeat returns and anything else is refused. Nothing changes. */
  lemma {:induction false} ReserveOnRecord(actions: seq<Action>, key: Key, i: nat)
    requires i < |Run(actions).ledger.intents|
    requires var row := Run(actions).ledger.intents[i].key;
             row.id == key.id || (row.campaign == key.campaign && row.request == key.request)
    ensures var l := Run(actions).ledger;
            && Reserve(l, key).0 == l
            && (Reserve(l, key).1 <==> l.intents[i].key == key)
  {
    var l := Run(actions).ledger;
    EveryRunIsSound(actions);
    EveryRowIsWellFormed(actions);
    FirstIntentIs(l.intents, key);
    HexDigestIs(key.id);
    HexDigestIs(key.request);
    HexDigestIs(key.price);
    assert IntentMatches(l.intents[i], key);
    var j :| 0 <= j < |l.intents| && l.intents[j] == FirstIntent(l.intents, key).value
             && IntentMatches(l.intents[j], key);
    AnyIntentRowGivesTheVerdict(actions, key, i, j);
  }

  /** With no such row: exactly the well-formed intents of a known campaign for which
      there is still room are appended, undispatched, and nothing else changes. */
  lemma {:induction false} ReserveAnew(actions: seq<Action>, key: Key)
    requires var rows := Run(actions).ledger.intents;
             forall i :: 0 <= i < |rows| ==>
               rows[i].key.id != key.id && (rows[i].key.campaign != key.campaign || rows[i].key.request != key.request)
    ensures var l := Run(actions).ledger;
            Reserve(l, key)
            == (if WellFormed(key) && key.campaign in l.campaigns
                   && Sum(Reservations(l.intents, key.campaign)) + key.credits <= l.campaigns[key.campaign].limit
                then (l.(intents := l.intents + [Intent(key, false)]), true)
                else (l, false))
  {
    var l := Run(actions).ledger;
    FirstIntentIs(l.intents, key);
    HexDigestIs(key.id);
    HexDigestIs(key.request);
    HexDigestIs(key.price);
    ReservedIsTheSum(l.intents, key.campaign);
  }

  /** Row i is the reserved, not yet dispatched intent a transport of this medium asks about. */
  predicate MayDispatch(l: Ledger, campaign: string, intent: string, request: string, media: Option<Media>, i: nat) {
    && i < |l.intents| && !l.intents[i].dispatched
    && l.intents[i].key.id == intent && l.intents[i].key.campaign == campaign && l.intents[i].key.request == request
    && (media.Some? ==> media.value == l.intents[i].key.media)
  }

  /** A claim succeeds on exactly such a row: that row alone is marked, and the caller
      holds a claim over what was reserved. */
  lemma ClaimVerdict(actions: seq<Action>, campaign: string, intent: string, request: string, media: Option<Media>,
                     i: nat)
    requires MayDispatch(Run(actions).ledger, campaign, intent, request, media, i)
    ensures var w, w' := Run(actions), Next(Run(actions), ClaimIt(campaign, intent, request, media));
            && Claim(w.ledger, campaign, intent, request, media).1
            && w'.ledger == w.ledger.(intents := w.ledger.intents[i := w.ledger.intents[i].(dispatched := true)])
            && w'.pending == w.pending + [Claimed(campaign, intent, request, w.ledger.intents[i].key.credits)]
            && w'.posts == w.posts
  {
    var w := Run(actions);
    EveryRunIsSound(actions);
    DispatchIs(w.ledger.intents, campaign, intent, request, media);
    assert Claimable(w.ledger.intents[i], campaign, intent, request, media);
    CreditsOfRow(w.ledger.intents, i);
    var rows := Dispatch(w.ledger.intents, campaign, intent, request, media).0;
    assert rows == w.ledger.intents[i := w.ledger.intents[i].(dispatched := true)];
  }

  lemma ClaimRefused(actions: seq<Action>, campaign: string, intent: string, request: string, media: Option<Media>)
    requires forall i: nat :: !MayDispatch(Run(actions).ledger, campaign, intent, request, media, i)
    ensures !Claim(Run(actions).ledger, campaign, intent, request, media).1
    ensures Next(Run(actions), ClaimIt(campaign, intent, request, media)) == Run(actions)
  {
    var l := Run(actions).ledger;
    DispatchRows(l.intents, campaign, intent, request, media);
    forall i | 0 <= i < |l.intents| ensures !Claimable(l.intents[i], campaign, intent, request, media) {
      assert !MayDispatch(l, campaign, intent, request, media, i);
    }
  }

  /** The campaign's own intent has been dispatched. */
  predicate WasDispatched(l: Ledger, campaign: string, intent: string) {
    exists i :: 0 <= i < |l.intents| && l.intents[i].dispatched
                && l.intents[i].key.id == intent && l.intents[i].key.campaign == campaign
  }

  lemma WasDispatchedIs(l: Ledger, campaign: string, intent: string)
    ensures WasDispatched(l, campaign, intent)
            <==> exists i :: 0 <= i < |l.intents| && IsDispatched(l.intents[i], campaign, intent)
  {
    if WasDispatched(l, campaign, intent) {
      var i :| 0 <= i < |l.intents| && l.intents[i].dispatched
               && l.intents[i].key.id == intent && l.intents[i].key.campaign == campaign;
      assert IsDispatched(l.intents[i], campaign, intent);
    }
  }

  lemma {:induction false} FirstReceiptMatches(receipts: seq<Receipt>, intent: string, task: string)
    ensures FirstReceipt(receipts, intent, task).Some? ==>
              exists i :: 0 <= i < |receipts| && receipts[i] == FirstReceipt(receipts, intent, task).value
                  && ReceiptMatches(receipts[i], intent, task)
  {
    if receipts != [] && !ReceiptMatches(receipts[0], intent, task) {
      FirstReceiptMatches(receipts[1..], intent, task);
      if FirstReceipt(receipts[1..], intent, task).Some? {
        var i :| 0 <= i < |receipts[1..]| && receipts[1..][i] == FirstReceipt(receipts[1..], intent, task).value
                 && ReceiptMatches(receipts[1..][i], intent, task);
        assert receipts[i + 1] == receipts[1..][i];
      }
    }
  }

  /** A receipt of the same intent or the same provider task answers the call. */
  lemma AcceptOnRecord(actions: seq<Action>, campaign: string, receipt: Receipt, i: nat)
    requires i < |Run(actions).ledger.receipts|
    requires var row := Run(actions).ledger.receipts[i]; row.intent == receipt.intent || row.task == receipt.task
    ensures var l := Run(actions).ledger;
            && Accept(l, campaign, receipt).0 == l
            && (Accept(l, campaign, receipt).1
                <==> l.receipts[i] == receipt && WasDispatched(l, campaign, receipt.intent))
  {
    var l := Run(actions).ledger;
    EveryRowIsWellFormed(actions);
    WasDispatchedIs(l, campaign, receipt.intent);
    FirstReceiptIs(l.receipts, receipt.intent, receipt.task);
    FirstReceiptMatches(l.receipts, receipt.intent, receipt.task);
    HexDigestIs(receipt.response);
    TaskNameIs(receipt.task);
    assert ReceiptMatches(l.receipts[i], receipt.intent, receipt.task);
    var j :| 0 <= j < |l.receipts| && l.receipts[j] == FirstReceipt(l.receipts, receipt.intent, receipt.task).value
             && ReceiptMatches(l.receipts[j], receipt.intent, receipt.task);
    AnyReceiptRowGivesTheVerdict(actions, receipt, i, j);
  }

  /** With no such receipt, exactly the well-formed ones of a dispatched intent are appended. */
  lemma AcceptAnew(actions: seq<Action>, campaign: string, receipt: Receipt)
    requires var rows := Run(actions).ledger.receipts;
             forall i :: 0 <= i < |rows| ==> rows[i].intent != receipt.intent && rows[i].task != receipt.task
    ensures var l := Run(actions).ledger;
            Accept(l, campaign, receipt)
            == (if HexDigest(receipt.response) && TaskName(receipt.task) && WasDispatched(l, campaign, receipt.intent)
                then (l.(receipts := l.receipts + [receipt]), true)
                else (l, false))
  {
    var l := Run(actions).ledger;
    WasDispatchedIs(l, campaign, receipt.intent);
    FirstReceiptIs(l.receipts, receipt.intent, receipt.task);
    FirstReceiptMatches(l.receipts, receipt.intent, receipt.task);
    HexDigestIs(receipt.response);
    TaskNameIs(receipt.task);
  }

  /** Row i is the provider task accepted for this campaign's intent. */
  predicate IsAccepted(l: Ledger, campaign: string, intent: string, task: string) {
    && (exists i :: 0 <= i < |l.receipts| && l.receipts[i].intent == intent && l.receipts[i].task == task)
    && (exists i :: 0 <= i < |l.intents| && l.intents[i].key.id == intent && l.intents[i].key.campaign == campaign)
  }

  lemma {:induction false} TaskOfReceipt(receipts: seq<Receipt>, i: nat)
    requires i < |receipts| && UniqueReceipts(receipts)
    ensures TaskOf(receipts, receipts[i].intent) == Some(receipts[i].task)
  {
    if i > 0 {
      TaskOfReceipt(receipts[1..], i - 1);
    }
  }

  /** A report is taken only about the task accepted for that campaign's intent; the first
      one stored under its response digest stays, and nothing else changes. */
  lemma RefreshVerdict(actions: seq<Action>, campaign: string, intent: string, task: string, response: string,
                       report: string)
    ensures var l := Run(actions).ledger;
            Refresh(l, campaign, intent, task, response, report)
            == (if !IsAccepted(l, campaign, intent, task) then (l, false)
                else if (intent, response) in l.observations then (l, true)
                else (l.(observations := l.observations[(intent, response) := report]), true))
  {
    var l := Run(actions).ledger;
    EveryRunIsSound(actions);
    TaskOfIs(l.receipts, intent);
    if HasReceipt(l.receipts, intent) {
      var i :| 0 <= i < |l.receipts| && l.receipts[i].intent == intent;
      TaskOfReceipt(l.receipts, i);
    }
  }

  lemma {:induction false} RunOne(actions: seq<Action>, a: Action)
    ensures Run(actions + [a]) == Next(Run(actions), a)
  {
    assert (actions + [a])[..|actions|] == actions;
  }

  /** One paid request nothing disturbs: reserved, claimed and sent, it is POSTed once for
      what it reserved, and its row stays behind as dispatched. */
  lemma {:induction false} FundedRequestIsPosted(actions: seq<Action>, key: Key)
    requires var l := Run(actions).ledger;
             && WellFormed(key) && key.campaign in l.campaigns
             && Sum(Reservations(l.intents, key.campaign)) + key.credits <= l.campaigns[key.campaign].limit
             && forall i :: 0 <= i < |l.intents| ==>
                  l.intents[i].key.id != key.id
                      && (l.intents[i].key.campaign != key.campaign || l.intents[i].key.request != key.request)
    ensures var w := Run(actions);
            var claim := ClaimIt(key.campaign, key.id, key.request, Some(key.media));
            var w' := Run(actions + [ReserveIt(key)] + [claim] + [SendIt(|w.pending|)]);
            && w'.posts == w.posts + [Claimed(key.campaign, key.id, key.request, key.credits)]
            && w'.pending == w.pending
            && w'.ledger == w.ledger.(intents := w.ledger.intents + [Intent(key, true)])
  {
    var w, claim := Run(actions), ClaimIt(key.campaign, key.id, key.request, Some(key.media));
    var n := |w.ledger.intents|;
    ReserveAnew(actions, key);
    RunOne(actions, ReserveIt(key));
    var reserved := Run(actions + [ReserveIt(key)]).ledger;
    assert MayDispatch(reserved, key.campaign, key.id, key.request, Some(key.media), n);
    ClaimVerdict(actions + [ReserveIt(key)], key.campaign, key.id, key.request, Some(key.media), n);
    RunOne(actions + [ReserveIt(key)], claim);
    RunOne(actions + [ReserveIt(key)] + [claim], SendIt(|w.pending|));
    assert reserved.intents[n := Intent(key, true)] == w.ledger.intents + [Intent(key, true)];
    var pending := Run(actions + [ReserveIt(key)] + [claim]).pending;
    assert Remove(pending, |w.pending|) == w.pending;
  }
}
