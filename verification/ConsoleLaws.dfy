/** What holds of the bank console over every interleaving of requests. */
module ConsoleLaws {
  import opened Prelude
  import opened Text
  import opened Console
  import Outputs

  datatype Request =
    | SubAccountForm(m: string, review: bool, product: string, token: string)
    | ConfirmSubAccount(m: string, product: string, csrf: Option<string>)
    | DisputeForm(m: string, did: string, review: bool, reason: string, token: string)
    | SubmitDispute(m: string, did: string, reason: string, csrf: Option<string>)
    | BlockForm(m: string, last4: string, token: string)
    | ReissueForm(m: string, last4: string, token: string)
    | StartCardPost(block: bool, m: string, last4: string)
    | FinishCardPost(k: nat, csrf: Option<string>)
    | Reset

  datatype Turn = Turn(request: Request, now: int)

  predicate IsPage(r: Request) {
    r.SubAccountForm? || r.DisputeForm? || r.BlockForm? || r.ReissueForm?
  }

  datatype Seeds = Seeds(members: seq<Member>, disputes: seq<Dispute>, cards: seq<Card>)

  function Start(s: Seeds): Bank {
    Bank(map[], s.disputes, [], [], s.cards, [], 0, [])
  }

  /** Any request at any time; a reset waits until no card post is in the middle. */
  predicate Enabled(b: Bank, t: Turn) {
    match t.request
    case FinishCardPost(k, _) => k < |b.pending| && b.pending[k].card < |b.cards|
    case Reset => b.pending == []
    case _ => true
  }

  function Step(s: Seeds, b: Bank, t: Turn): (Bank, Reply)
    requires Enabled(b, t)
  {
    match t.request
    case SubAccountForm(m, review, product, token) => SubAccountPage(s.members, b, m, review, product, token, t.now)
    case ConfirmSubAccount(m, product, csrf) => SubAccountConfirm(b, m, product, csrf, t.now)
    case DisputeForm(m, did, review, reason, token) => DisputePage(s.members, b, m, did, review, reason, token, t.now)
    case SubmitDispute(m, did, reason, csrf) => DisputeSubmit(b, m, did, reason, csrf, t.now)
    case BlockForm(m, last4, token) => BlockPage(s.members, b, m, last4, token, t.now)
    case ReissueForm(m, last4, token) => ReissuePage(s.members, b, m, last4, token, t.now)
    case StartCardPost(block, m, last4) => CardPost(s.members, b, block, m, last4)
    case FinishCardPost(k, csrf) => CardBody(b, k, csrf, t.now)
    case Reset => (Start(s).(lastId := b.lastId), Form)
  }

  // ----- The seeds -----

  ghost predicate KnownId(members: seq<Member>, id: string) {
    exists m | m in members :: m.id == id
  }

  ghost predicate WellSeeded(s: Seeds) {
    && (forall m | m in s.members :: ':' !in m.id)
    && (forall d | d in s.disputes :: ':' !in d.id && Trim(d.id) == d.id && KnownId(s.members, d.memberId))
    && (forall i, j | 0 <= i < j < |s.disputes| :: Upper(s.disputes[i].id) != Upper(s.disputes[j].id))
    && (forall c | c in s.cards :: ':' !in c.last4 && Trim(c.last4) == c.last4 && KnownId(s.members, c.memberId) && !c.reissueReady)
    && (forall c | c in s.cards && !c.blocked && !c.business :: c.caseNumber.None?)
    && (forall i, j | 0 <= i < j < |s.cards| :: s.cards[i].memberId != s.cards[j].memberId || s.cards[i].last4 != s.cards[j].last4)
  }

  // ----- The invariant -----

  ghost predicate Active(members: seq<Member>, m: string) {
    var found := LookupMember(members, m);
    found.Row? && found.member in members && found.member.active
  }

  ghost predicate OpenAtSeed(s: Seeds, i: nat, m: string, did: string) {
    i < |s.disputes| && s.disputes[i].id == did && s.disputes[i].memberId == Trim(m) && !s.disputes[i].filed
  }

  ghost predicate UsableAtSeed(s: Seeds, i: nat, m: string, last4: string) {
    i < |s.cards| && s.cards[i].memberId == Trim(m) && s.cards[i].last4 == last4 && !s.cards[i].business && !s.cards[i].blocked
  }

  /** What a live token may be for. */
  ghost predicate DeedOk(s: Seeds, d: Deed) {
    match d
    case OpensSubAccount(m) => Admitted(s.members, m)
    case FilesDispute(m, did) => Active(s.members, m) && ':' !in m && exists i: nat :: OpenAtSeed(s, i, m, did)
    case BlocksCard(m, last4) => Active(s.members, m) && ':' !in m && exists i: nat :: UsableAtSeed(s, i, m, last4)
    case ReissuesCard(m, last4) => Active(s.members, m) && ':' !in m && exists i: nat :: UsableAtSeed(s, i, m, last4)
  }

  ghost predicate TokenFor(s: Seeds, action: string, d: Deed) {
    action == ActionText(d) && DeedOk(s, d)
  }

  ghost predicate TokensOk(s: Seeds, tokens: map<string, Issued>) {
    forall t | t in tokens :: exists d :: TokenFor(s, tokens[t].action, d)
  }

  /** An open dispute stays open until a row is filed for it; rows name open disputes, each once. */
  ghost predicate DisputesOk(s: Seeds, ds: seq<Dispute>, fs: seq<Filing>) {
    && |ds| == |s.disputes|
    && (forall i | 0 <= i < |ds| ::
          && ds[i].id == s.disputes[i].id && ds[i].memberId == s.disputes[i].memberId
          && (ds[i].filed <==> s.disputes[i].filed || HasFiling(fs, ds[i].id)))
    && (forall f | f in fs :: DeedOk(s, FilesDispute(f.memberId, f.disputeId)))
    && (forall i, j | 0 <= i < j < |fs| :: fs[i].disputeId != fs[j].disputeId)
  }

  ghost predicate RowFor(a: CardAction, c: Card) {
    Trim(a.memberId) == c.memberId && a.last4 == c.last4
  }

  ghost predicate HasRow(rows: seq<CardAction>, c: Card) {
    exists a | a in rows :: RowFor(a, c)
  }

  /** A usable card at the end of its life. */
  function Reissued(seed: Card, caseNumber: string): Card {
    seed.(blocked := true, reissueReady := false, caseNumber := Some(caseNumber))
  }

  /** The life of a card: usable, blocked here, reissued here with its row's case number; others never move. */
  ghost predicate CardOk(seed: Card, c: Card, rows: seq<CardAction>) {
    && c.memberId == seed.memberId && c.last4 == seed.last4 && c.business == seed.business
    && if seed.business || seed.blocked then c == seed && !HasRow(rows, c)
       else if c.caseNumber.None? then c.blocked == c.reissueReady && !HasRow(rows, c)
       else c.blocked && !c.reissueReady && exists a | a in rows :: RowFor(a, c) && c.caseNumber == Some(a.caseNumber)
  }

  ghost predicate ActionsOk(s: Seeds, rows: seq<CardAction>, lastId: nat) {
    && (forall a | a in rows :: DeedOk(s, ReissuesCard(a.memberId, a.last4)) && 1 <= a.id <= lastId)
    && (forall i, j | 0 <= i < j < |rows| :: rows[i].id < rows[j].id)
    && (forall i, j | 0 <= i < j < |rows| :: Trim(rows[i].memberId) != Trim(rows[j].memberId) || rows[i].last4 != rows[j].last4)
    && (forall i | 0 <= i < |rows| :: rows[i].caseNumber == CaseText(if i == 0 then 0 else rows[i - 1].id))
  }

  ghost predicate CardsOk(s: Seeds, cards: seq<Card>, rows: seq<CardAction>, lastId: nat) {
    && |cards| == |s.cards|
    && (forall i | 0 <= i < |cards| :: CardOk(s.cards[i], cards[i], rows))
    && ActionsOk(s, rows, lastId)
  }

  ghost predicate PendingOk(s: Seeds, pending: seq<Pending>) {
    forall p | p in pending ::
      p.card < |s.cards| && s.cards[p.card].memberId == Trim(p.memberId) && Active(s.members, p.memberId) && ':' !in p.memberId
  }

  ghost predicate Inv(s: Seeds, b: Bank) {
    && TokensOk(s, b.tokens)
    && DisputesOk(s, b.disputes, b.filings)
    && (forall r | r in b.subAccounts :: Admitted(s.members, r.memberId))
    && CardsOk(s, b.cards, b.cardActions, b.lastId)
    && PendingOk(s, b.pending)
  }

  // ----- Token texts -----

  lemma {:induction false} CutAtColon(a: string, b: string, c: string, d: string)
    requires a + ":" + b == c + ":" + d && ':' !in a && ':' !in b
    ensures a == c && b == d
  {
    var s := a + ":" + b;
    assert s[|c|] == ':';
    assert forall k | 0 <= k < |a| :: s[k] == a[k] && a[k] != ':';
    assert forall k | |a| < k < |s| :: s[k] == b[k - |a| - 1] && b[k - |a| - 1] != ':';
    assert |c| == |a|;
    assert s[..|a|] == a && s[..|c|] == c && s[|a| + 1..] == b && s[|c| + 1..] == d;
  }

  /** No two deeds share a text, once one of them has no colon in its parts. */
  lemma TextsAreUnambiguous(d: Deed, e: Deed)
    requires ActionText(d) == ActionText(e)
    requires match d
             case OpensSubAccount(_) => true
             case FilesDispute(m, x) => ':' !in m && ':' !in x
             case BlocksCard(m, x) => ':' !in m && ':' !in x
             case ReissuesCard(m, x) => ':' !in m && ':' !in x
    ensures d == e
  {
    FirstLetter(d);
    FirstLetter(e);
    TextParts(d);
    TextParts(e);
    hide ActionText;
    match d
    case OpensSubAccount(m) =>
    case FilesDispute(m, x) => CutAtColon(m, x, e.member, e.dispute);
    case BlocksCard(m, x) => CutAtColon(m, x, e.member, e.last4);
    case ReissuesCard(m, x) => CutAtColon(m, x, e.member, e.last4);
  }

  lemma FirstLetter(d: Deed)
    ensures ActionText(d) != ""
    ensures ActionText(d)[0] == match d
            case OpensSubAccount(_) => 's'
            case FilesDispute(_, _) => 'd'
            case BlocksCard(_, _) => 'b'
            case ReissuesCard(_, _) => 'r'
  {
  }

  lemma TextParts(d: Deed)
    ensures match d
            case OpensSubAccount(m) => |ActionText(d)| >= 12 && ActionText(d)[12..] == m
            case FilesDispute(m, x) => |ActionText(d)| >= 8 && ActionText(d)[8..] == m + ":" + x
            case BlocksCard(m, x) => |ActionText(d)| >= 6 && ActionText(d)[6..] == m + ":" + x
            case ReissuesCard(m, x) => |ActionText(d)| >= 8 && ActionText(d)[8..] == m + ":" + x
  {
    match d
    case OpensSubAccount(m) =>
    case FilesDispute(m, x) => BehindPrefix("dispute:", m, x);
    case BlocksCard(m, x) => BehindPrefix("block:", m, x);
    case ReissuesCard(m, x) => BehindPrefix("reissue:", m, x);
  }

  lemma BehindPrefix(p: string, m: string, x: string)
    ensures (p + m + ":" + x)[|p|..] == m + ":" + x
  {
  }

  /** A spent token was for this very deed, which is sound. */
  lemma SpentMeansSound(s: Seeds, tokens: map<string, Issued>, csrf: Option<string>, deed: Deed, now: int)
    requires WellSeeded(s) && TokensOk(s, tokens)
    ensures TokensOk(s, Consume(tokens, csrf, ActionText(deed), now).0)
    ensures Consume(tokens, csrf, ActionText(deed), now).1 ==> DeedOk(s, deed)
  {
    hide ActionText, Admitted, Active;
    if Consume(tokens, csrf, ActionText(deed), now).1 {
      var d :| TokenFor(s, tokens[csrf.value].action, d);
      PartsHaveNoColon(s, d);
      TextsAreUnambiguous(d, deed);
    }
  }

  lemma PartsHaveNoColon(s: Seeds, d: Deed)
    requires WellSeeded(s) && DeedOk(s, d)
    ensures match d
            case OpensSubAccount(_) => true
            case FilesDispute(m, x) => ':' !in m && ':' !in x
            case BlocksCard(m, x) => ':' !in m && ':' !in x
            case ReissuesCard(m, x) => ':' !in m && ':' !in x
  {
    hide Admitted, Active, Trim, Upper;
  }

  // ----- Members -----

  lemma {:induction false} TrimLeftKeepsColons(m: string)
    requires ':' in m
    ensures ':' in TrimLeft(m)
  {
    if IsSpace(m[0]) {
      assert ':' in m[1..];
      TrimLeftKeepsColons(m[1..]);
    }
  }

  lemma {:induction false} TrimRightKeepsColons(m: string)
    requires ':' in m
    ensures ':' in TrimRight(m)
  {
    if IsSpace(m[|m| - 1]) {
      assert ':' in m[..|m| - 1];
      TrimRightKeepsColons(m[..|m| - 1]);
    }
  }

  /** Someone who owns a row and is admitted is a known, active member, with no colon in sight. */
  lemma OwnersAreActive(s: Seeds, m: string)
    requires WellSeeded(s) && KnownId(s.members, Trim(m)) && Admitted(s.members, m)
    ensures Active(s.members, m) && ':' !in m
  {
    if ':' in m {
      TrimLeftKeepsColons(m);
      TrimRightKeepsColons(TrimLeft(m));
    }
  }

  // ----- Rows found by key -----

  /** The seeds' keys are unique, so a search by a row's own key finds that row. */
  lemma {:induction false} FindCardFinds(s: Seeds, cards: seq<Card>, m: string, at: nat, from: nat)
    requires WellSeeded(s) && |cards| == |s.cards| && from <= at < |cards|
    requires forall i | 0 <= i < |cards| :: cards[i].memberId == s.cards[i].memberId && cards[i].last4 == s.cards[i].last4
    requires cards[at].memberId == Trim(m)
    ensures FindCard(cards, m, cards[at].last4, from) == Some(at)
    decreases at - from
  {
    hide Trim;
    assert s.cards[at] in s.cards;
    if from < at {
      FindCardFinds(s, cards, m, at, from + 1);
    }
  }

  lemma {:induction false} DisputeByIdFinds(s: Seeds, ds: seq<Dispute>, at: nat, from: nat)
    requires WellSeeded(s) && |ds| == |s.disputes| && from <= at < |ds|
    requires forall i | 0 <= i < |ds| :: ds[i].id == s.disputes[i].id
    ensures DisputeById(ds, ds[at].id, from) == Some(at)
    decreases at - from
  {
    hide Trim, Upper;
    assert s.disputes[at] in s.disputes;
    if from < at {
      DisputeByIdFinds(s, ds, at, from + 1);
    }
  }

  // ----- Each handler keeps the invariant -----

  lemma MintKeepsTokens(s: Seeds, b: Bank, token: string, deed: Deed, now: int)
    requires TokensOk(s, b.tokens) && DeedOk(s, deed)
    ensures TokensOk(s, Mint(b, token, deed, now).tokens)
  {
    hide ActionText, DeedOk;
    var tokens := Mint(b, token, deed, now).tokens;
    forall t | t in tokens
      ensures exists d :: TokenFor(s, tokens[t].action, d)
    {
      if t == token {
        assert TokenFor(s, tokens[t].action, deed);
      } else {
        assert exists d :: TokenFor(s, b.tokens[t].action, d);
      }
    }
  }

  lemma ReviewMintsOpenDisputes(s: Seeds, b: Bank, m: string, i: nat)
    requires WellSeeded(s) && Inv(s, b) && Admitted(s.members, m)
    requires i < |b.disputes| && b.disputes[i].memberId == Trim(m) && !b.disputes[i].filed
    ensures DeedOk(s, FilesDispute(m, b.disputes[i].id))
  {
    hide TokensOk, CardsOk, PendingOk, Trim, LookupMember;
    assert s.disputes[i] in s.disputes;
    OwnersAreActive(s, m);
    assert OpenAtSeed(s, i, m, b.disputes[i].id);
  }

  lemma UsableCardsAreOk(s: Seeds, b: Bank, m: string, i: nat)
    requires WellSeeded(s) && Inv(s, b) && Admitted(s.members, m)
    requires i < |b.cards| && b.cards[i].memberId == Trim(m)
    requires !b.cards[i].business && (!b.cards[i].blocked || b.cards[i].reissueReady)
    ensures DeedOk(s, BlocksCard(m, b.cards[i].last4)) && DeedOk(s, ReissuesCard(m, b.cards[i].last4))
  {
    hide TokensOk, DisputesOk, PendingOk, ActionsOk, HasRow, Trim, LookupMember;
    assert s.cards[i] in s.cards;
    assert CardOk(s.cards[i], b.cards[i], b.cardActions);
    OwnersAreActive(s, m);
    assert UsableAtSeed(s, i, m, b.cards[i].last4);
  }

  lemma PagesKeepInv(s: Seeds, b: Bank, t: Turn)
    requires WellSeeded(s) && Inv(s, b) && Enabled(b, t)
    requires IsPage(t.request)
    ensures Inv(s, Step(s, b, t).0)
  {
    hide TokensOk, DisputesOk, CardsOk, PendingOk, Admitted, ActionText, Trim, Upper;
    match t.request
    case SubAccountForm(m, review, product, token) =>
      if Admitted(s.members, m) {
        MintKeepsTokens(s, b, token, OpensSubAccount(m), t.now);
      }
    case DisputeForm(m, did, review, reason, token) =>
      var i := FindDispute(b.disputes, m, did);
      if Admitted(s.members, m) && i.Some? && !b.disputes[i.value].filed {
        ReviewMintsOpenDisputes(s, b, m, i.value);
        MintKeepsTokens(s, b, token, FilesDispute(m, b.disputes[i.value].id), t.now);
      }
    case BlockForm(m, last4, token) =>
      var i := FindCard(b.cards, m, last4);
      if Admitted(s.members, m) && i.Some? && !b.cards[i.value].business && !b.cards[i.value].blocked {
        UsableCardsAreOk(s, b, m, i.value);
        MintKeepsTokens(s, b, token, BlocksCard(m, b.cards[i.value].last4), t.now);
      }
    case ReissueForm(m, last4, token) =>
      var i := FindCard(b.cards, m, last4);
      if Admitted(s.members, m) && i.Some? && !b.cards[i.value].business && b.cards[i.value].reissueReady {
        UsableCardsAreOk(s, b, m, i.value);
        MintKeepsTokens(s, b, token, ReissuesCard(m, b.cards[i.value].last4), t.now);
      }
  }

  lemma SubAccountKeepsInv(s: Seeds, b: Bank, m: string, product: string, csrf: Option<string>, now: int)
    requires WellSeeded(s) && Inv(s, b)
    ensures Inv(s, SubAccountConfirm(b, m, product, csrf, now).0)
  {
    hide TokensOk, DisputesOk, CardsOk, PendingOk, Admitted, ActionText, Trim;
    SpentMeansSound(s, b.tokens, csrf, OpensSubAccount(m), now);
  }

  lemma OtherIdsStay(s: Seeds, k: nat, i: nat)
    requires WellSeeded(s) && k < |s.disputes| && i < |s.disputes| && i != k
    ensures s.disputes[i].id != s.disputes[k].id
  {
    hide Upper, Trim;
    assert i < k ==> Upper(s.disputes[i].id) != Upper(s.disputes[k].id);
    assert k < i ==> Upper(s.disputes[k].id) != Upper(s.disputes[i].id);
  }

  lemma OneMoreFiling(fs: seq<Filing>, row: Filing, did: string)
    ensures HasFiling(fs + [row], did) <==> HasFiling(fs, did) || row.disputeId == did
  {
    assert row in fs + [row] && forall f | f in fs :: f in fs + [row];
  }

  /** The row just filed, or filed before, marks exactly its own dispute. */
  lemma FilingKeepsDisputes(s: Seeds, ds: seq<Dispute>, fs: seq<Filing>, row: Filing)
    requires WellSeeded(s) && DisputesOk(s, ds, fs) && DeedOk(s, FilesDispute(row.memberId, row.disputeId))
    ensures DisputesOk(s, MarkFiled(ds, row.disputeId), if HasFiling(fs, row.disputeId) then fs else fs + [row])
  {
    hide Admitted, Active, Trim, Upper, HasFiling;
    var k: nat :| OpenAtSeed(s, k, row.memberId, row.disputeId);
    DisputeByIdFinds(s, ds, k, 0);
    var ds' := MarkFiled(ds, row.disputeId);
    var fs' := if HasFiling(fs, row.disputeId) then fs else fs + [row];
    assert ds' == ds[k := ds[k].(filed := true, caseNumber := Some(DISPUTE_CASE))];
    forall i | 0 <= i < |ds'|
      ensures ds'[i].filed <==> s.disputes[i].filed || HasFiling(fs', ds'[i].id)
    {
      OneMoreFiling(fs, row, ds[i].id);
      if i != k {
        OtherIdsStay(s, k, i);
      }
    }
    FilingIdsStayDistinct(s, fs, row);
  }

  lemma FilingIdsStayDistinct(s: Seeds, fs: seq<Filing>, row: Filing)
    requires forall f | f in fs :: DeedOk(s, FilesDispute(f.memberId, f.disputeId))
    requires forall i, j | 0 <= i < j < |fs| :: fs[i].disputeId != fs[j].disputeId
    requires DeedOk(s, FilesDispute(row.memberId, row.disputeId))
    ensures var fs' := if HasFiling(fs, row.disputeId) then fs else fs + [row];
            && (forall f | f in fs' :: DeedOk(s, FilesDispute(f.memberId, f.disputeId)))
            && (forall i, j | 0 <= i < j < |fs'| :: fs'[i].disputeId != fs'[j].disputeId)
  {
    hide DeedOk;
  }

  lemma SubmitKeepsInv(s: Seeds, b: Bank, m: string, did: string, reason: string, csrf: Option<string>, now: int)
    requires WellSeeded(s) && Inv(s, b)
    ensures Inv(s, DisputeSubmit(b, m, did, reason, csrf, now).0)
  {
    hide TokensOk, DisputesOk, CardsOk, PendingOk, Admitted, ActionText, Trim, DeedOk, MarkFiled;
    SpentMeansSound(s, b.tokens, csrf, FilesDispute(m, did), now);
    if Consume(b.tokens, csrf, ActionText(FilesDispute(m, did)), now).1 {
      FilingKeepsDisputes(s, b.disputes, b.filings, Filing(did, m, Trim(reason)));
    }
  }

  lemma CardPostKeepsInv(s: Seeds, b: Bank, block: bool, m: string, last4: string)
    requires WellSeeded(s) && Inv(s, b)
    ensures Inv(s, CardPost(s.members, b, block, m, last4).0)
  {
    hide TokensOk, DisputesOk, Admitted, Trim, Active, ActionsOk, HasRow;
    var i := FindCard(b.cards, m, last4);
    if Admitted(s.members, m) && i.Some? {
      assert s.cards[i.value] in s.cards;
      assert CardOk(s.cards[i.value], b.cards[i.value], b.cardActions);
      OwnersAreActive(s, m);
    }
  }

  /** Blocking moves one usable card to ready-for-reissue and nothing else. */
  lemma BlockingKeepsCards(s: Seeds, cards: seq<Card>, rows: seq<CardAction>, lastId: nat, m: string, at: nat)
    requires WellSeeded(s) && CardsOk(s, cards, rows, lastId) && at < |cards| && cards[at].memberId == Trim(m)
    requires !cards[at].business && !cards[at].blocked
    ensures MarkBlocked(cards, m, cards[at].last4) == cards[at := cards[at].(blocked := true, reissueReady := true)]
    ensures CardsOk(s, MarkBlocked(cards, m, cards[at].last4), rows, lastId)
  {
    hide Trim, ActionsOk;
    FindCardFinds(s, cards, m, at, 0);
    assert CardOk(s.cards[at], cards[at], rows);
    var cards' := MarkBlocked(cards, m, cards[at].last4);
    forall i | 0 <= i < |cards'|
      ensures CardOk(s.cards[i], cards'[i], rows)
    {
      assert CardOk(s.cards[i], cards[i], rows);
      assert HasRow(rows, cards'[i]) <==> HasRow(rows, cards[i]);
    }
  }

  lemma BlockBodyKeepsInv(s: Seeds, b: Bank, m: string, at: nat, csrf: Option<string>, now: int)
    requires WellSeeded(s) && Inv(s, b) && at < |b.cards| && b.cards[at].memberId == Trim(m)
    ensures Inv(s, BlockBody(b, m, at, csrf, now).0)
  {
    hide TokensOk, DisputesOk, PendingOk, Admitted, ActionText, Trim, DeedOk, MarkBlocked, CardsOk;
    SpentMeansSound(s, b.tokens, csrf, BlocksCard(m, b.cards[at].last4), now);
    if !b.cards[at].business && !b.cards[at].blocked {
      BlockingKeepsCards(s, b.cards, b.cardActions, b.lastId, m, at);
    }
  }

  lemma {:induction false} MaxIdIsLast(rows: seq<CardAction>)
    requires forall i, j | 0 <= i < j < |rows| :: rows[i].id < rows[j].id
    ensures MaxId(rows) == if rows == [] then 0 else rows[|rows| - 1].id
  {
    if |rows| > 1 {
      MaxIdIsLast(rows[..|rows| - 1]);
    }
  }

  /** A card ready for reissue has no row, under any spelling of its member: the duplicate branch is dead. */
  lemma ReadyMeansNoRow(s: Seeds, b: Bank, m: string, at: nat)
    requires Inv(s, b) && at < |b.cards| && b.cards[at].memberId == Trim(m)
    requires !b.cards[at].business && b.cards[at].blocked && b.cards[at].reissueReady && !s.cards[at].reissueReady
    ensures !HasRow(b.cardActions, b.cards[at])
    ensures !HasAction(b.cardActions, m, b.cards[at].last4)
  {
    hide TokensOk, DisputesOk, PendingOk, ActionsOk, Trim;
    assert CardOk(s.cards[at], b.cards[at], b.cardActions);
    assert forall a | a in b.cardActions :: !RowFor(a, b.cards[at]);
  }

  lemma NewRowIsOk(s: Seeds, cards: seq<Card>, rows: seq<CardAction>, lastId: nat, m: string, at: nat)
    requires CardsOk(s, cards, rows, lastId) && at < |cards| && cards[at].memberId == Trim(m) && !HasRow(rows, cards[at])
    requires DeedOk(s, ReissuesCard(m, cards[at].last4))
    ensures ActionsOk(s, rows + [CardAction(lastId + 1, m, cards[at].last4, CaseText(MaxId(rows)))], lastId + 1)
  {
    hide Trim, DeedOk, CaseText, MaxId, CardOk;
    MaxIdIsLast(rows);
    forall i | 0 <= i < |rows|
      ensures !RowFor(rows[i], cards[at])
    {
      assert rows[i] in rows;
    }
    AppendingKeepsActions(s, rows, lastId, CardAction(lastId + 1, m, cards[at].last4, CaseText(MaxId(rows))));
  }

  lemma AppendingKeepsActions(s: Seeds, rows: seq<CardAction>, lastId: nat, row: CardAction)
    requires ActionsOk(s, rows, lastId) && DeedOk(s, ReissuesCard(row.memberId, row.last4)) && row.id == lastId + 1
    requires row.caseNumber == CaseText(if rows == [] then 0 else rows[|rows| - 1].id)
    requires forall i | 0 <= i < |rows| :: Trim(rows[i].memberId) != Trim(row.memberId) || rows[i].last4 != row.last4
    ensures ActionsOk(s, rows + [row], lastId + 1)
  {
    hide Trim, DeedOk, CaseText;
    assert forall i | 0 <= i < |rows| :: rows[i] in rows;
  }

  /** Reissuing moves one ready card to done, with the number of the row it gets. */
  lemma ReissuingKeepsCards(s: Seeds, cards: seq<Card>, rows: seq<CardAction>, lastId: nat, m: string, at: nat)
    requires WellSeeded(s) && CardsOk(s, cards, rows, lastId) && at < |cards| && cards[at].memberId == Trim(m)
    requires !cards[at].business && cards[at].blocked && cards[at].reissueReady
    requires DeedOk(s, ReissuesCard(m, cards[at].last4))
    ensures var caseNumber := CaseText(MaxId(rows));
            && MarkReissued(cards, m, cards[at].last4, caseNumber)
               == cards[at := cards[at].(caseNumber := Some(caseNumber), reissueReady := false)]
            && CardsOk(s, MarkReissued(cards, m, cards[at].last4, caseNumber),
                       rows + [CardAction(lastId + 1, m, cards[at].last4, caseNumber)], lastId + 1)
  {
    hide Trim, ActionsOk, DeedOk, CaseText, MaxId;
    assert s.cards[at] in s.cards;
    FindCardFinds(s, cards, m, at, 0);
    assert CardOk(s.cards[at], cards[at], rows);
    NewRowIsOk(s, cards, rows, lastId, m, at);
    var row := CardAction(lastId + 1, m, cards[at].last4, CaseText(MaxId(rows)));
    var rows', cards' := rows + [row], MarkReissued(cards, m, cards[at].last4, row.caseNumber);
    assert row in rows' && RowFor(row, cards'[at]);
    forall i | 0 <= i < |cards'|
      ensures CardOk(s.cards[i], cards'[i], rows')
    {
      assert CardOk(s.cards[i], cards[i], rows);
      if i != at {
        OtherCardsKeepTheirRows(s, rows, row, cards, at, i);
      }
    }
  }

  lemma OtherCardsKeepTheirRows(s: Seeds, rows: seq<CardAction>, row: CardAction, cards: seq<Card>, at: nat, i: nat)
    requires WellSeeded(s) && at < |s.cards| == |cards| && i < |s.cards| && i != at
    requires CardOk(s.cards[i], cards[i], rows) && CardOk(s.cards[at], cards[at], rows) && RowFor(row, cards[at])
    ensures CardOk(s.cards[i], cards[i], rows + [row])
  {
    hide Trim;
    assert !RowFor(row, cards[i]);
    if HasRow(rows + [row], cards[i]) {
      var a :| a in rows + [row] && RowFor(a, cards[i]);
      assert a in rows;
    }
    if a :| a in rows && RowFor(a, cards[i]) && cards[i].caseNumber == Some(a.caseNumber) {
      assert a in rows + [row];
    }
  }

  lemma ReissueBodyKeepsInv(s: Seeds, b: Bank, m: string, at: nat, csrf: Option<string>, now: int)
    requires WellSeeded(s) && Inv(s, b) && at < |b.cards| && b.cards[at].memberId == Trim(m)
    ensures Inv(s, ReissueBody(b, m, at, csrf, now).0)
    ensures !ReissueBody(b, m, at, csrf, now).1.AlreadyReissued?
  {
    hide TokensOk, DisputesOk, PendingOk, Admitted, ActionText, Trim, DeedOk, MarkReissued, HasAction, CaseText,
      MaxId, CardOk, ActionsOk, HasRow, Consume;
    SpentMeansSound(s, b.tokens, csrf, ReissuesCard(m, b.cards[at].last4), now);
    assert s.cards[at] in s.cards;
    var card := b.cards[at];
    if Consume(b.tokens, csrf, ActionText(ReissuesCard(m, card.last4)), now).1
       && !card.business && card.blocked && card.reissueReady {
      ReadyMeansNoRow(s, b, m, at);
      ReissuingKeepsCards(s, b.cards, b.cardActions, b.lastId, m, at);
    }
  }

  lemma CardBodyKeepsInv(s: Seeds, b: Bank, k: nat, csrf: Option<string>, now: int)
    requires WellSeeded(s) && Inv(s, b) && k < |b.pending| && b.pending[k].card < |b.cards|
    ensures Inv(s, CardBody(b, k, csrf, now).0)
    ensures !CardBody(b, k, csrf, now).1.AlreadyReissued?
  {
    hide TokensOk, DisputesOk, BlockBody, ReissueBody, Trim, Active, ActionsOk;
    var p := b.pending[k];
    assert p in b.pending;
    assert CardOk(s.cards[p.card], b.cards[p.card], b.cardActions);
    var b' := b.(pending := b.pending[..k] + b.pending[k + 1..]);
    assert Inv(s, b');
    if p.block {
      BlockBodyKeepsInv(s, b', p.memberId, p.card, csrf, now);
      BlockNeverSaysReissued(b', p.memberId, p.card, csrf, now);
    } else {
      ReissueBodyKeepsInv(s, b', p.memberId, p.card, csrf, now);
    }
  }

  lemma BlockNeverSaysReissued(b: Bank, m: string, at: nat, csrf: Option<string>, now: int)
    requires at < |b.cards|
    ensures !BlockBody(b, m, at, csrf, now).1.AlreadyReissued?
  {
  }

  lemma StartIsSound(s: Seeds, lastId: nat)
    requires WellSeeded(s)
    ensures Inv(s, Start(s).(lastId := lastId))
  {
    hide Trim, Upper;
    var b := Start(s);
    forall i | 0 <= i < |s.cards|
      ensures CardOk(s.cards[i], b.cards[i], [])
    {
      assert s.cards[i] in s.cards;
    }
  }

  /** Every request, in any order, keeps the invariant. */
  lemma StepKeepsInv(s: Seeds, b: Bank, t: Turn)
    requires WellSeeded(s) && Inv(s, b) && Enabled(b, t)
    ensures Inv(s, Step(s, b, t).0)
    ensures !Step(s, b, t).1.AlreadyReissued?
  {
    hide WellSeeded, Inv, SubAccountPage, DisputePage, BlockPage, ReissuePage, CardBody;
    match t.request
    case ConfirmSubAccount(m, product, csrf) =>
      SubAccountKeepsInv(s, b, m, product, csrf, t.now);
    case SubmitDispute(m, did, reason, csrf) =>
      SubmitKeepsInv(s, b, m, did, reason, csrf, t.now);
    case StartCardPost(block, m, last4) => CardPostKeepsInv(s, b, block, m, last4);
    case FinishCardPost(k, csrf) => CardBodyKeepsInv(s, b, k, csrf, t.now);
    case Reset => StartIsSound(s, b.lastId);
    case _ =>
      PagesKeepInv(s, b, t);
      PagesNeverWrite(s, b, t);
  }

  lemma PagesNeverWrite(s: Seeds, b: Bank, t: Turn)
    requires Enabled(b, t)
    requires IsPage(t.request)
    ensures var (b', r) := Step(s, b, t); b' == b.(tokens := b'.tokens) && !r.Written? && !r.ToReissue? && !r.AlreadyReissued?
  {
    hide ActionText, Trim;
  }

  /** The member's dispute is open right now. */
  ghost predicate ShowsOpen(b: Bank, m: string, did: string) {
    exists i | 0 <= i < |b.disputes| :: b.disputes[i].id == did && b.disputes[i].memberId == Trim(m) && !b.disputes[i].filed
  }

  /** A new row spends a live token that names it. */
  lemma RowsHaveASource(s: Seeds, b: Bank, t: Turn)
    requires Enabled(b, t)
    ensures forall f | f in Step(s, b, t).0.filings ::
              f in b.filings || exists k :: k in b.tokens && b.tokens[k].action == ActionText(FilesDispute(f.memberId, f.disputeId))
  {
    hide ActionText, Admitted, Trim, Upper, MarkFiled, MarkBlocked, MarkReissued, HasAction, MaxId, CaseText;
  }

  lemma OnlyPagesMint(s: Seeds, b: Bank, t: Turn, k: string)
    requires Enabled(b, t) && !IsPage(t.request) && k in Step(s, b, t).0.tokens
    ensures k in b.tokens && Step(s, b, t).0.tokens[k] == b.tokens[k]
  {
    hide ActionText, Trim, Admitted, MarkFiled, MarkBlocked, MarkReissued, CaseText, MaxId;
  }

  lemma CardPagesMintForCards(s: Seeds, b: Bank, t: Turn, k: string, m: string, did: string)
    requires WellSeeded(s) && Inv(s, b) && Enabled(b, t) && (t.request.BlockForm? || t.request.ReissueForm?)
    requires k in Step(s, b, t).0.tokens && !(k in b.tokens && b.tokens[k] == Step(s, b, t).0.tokens[k])
    ensures Step(s, b, t).0.tokens[k].action != ActionText(FilesDispute(m, did))
  {
    hide ActionText, Trim, Inv, WellSeeded, Admitted;
    var i := FindCard(b.cards, t.request.m, t.request.last4).value;
    var x, last4 := t.request.m, b.cards[i].last4;
    UsableCardsAreOk(s, b, x, i);
    PartsHaveNoColon(s, BlocksCard(x, last4));
    PartsHaveNoColon(s, ReissuesCard(x, last4));
    if ActionText(BlocksCard(x, last4)) == ActionText(FilesDispute(m, did)) {
      TextsAreUnambiguous(BlocksCard(x, last4), FilesDispute(m, did));
    }
    if ActionText(ReissuesCard(x, last4)) == ActionText(FilesDispute(m, did)) {
      TextsAreUnambiguous(ReissuesCard(x, last4), FilesDispute(m, did));
    }
  }

  lemma FreshTokenIsThisReview(s: Seeds, b: Bank, t: Turn, k: string, m: string, did: string)
    requires WellSeeded(s) && Inv(s, b) && Enabled(b, t)
    requires var b' := Step(s, b, t).0;
             k in b'.tokens && b'.tokens[k].action == ActionText(FilesDispute(m, did)) && !(k in b.tokens && b.tokens[k] == b'.tokens[k])
    ensures t.request.DisputeForm? && Step(s, b, t).1 == Review && m == t.request.m
    ensures ShowsOpen(b, m, did)
  {
    hide ActionText, Trim, Upper, Inv, WellSeeded, Admitted;
    if !IsPage(t.request) {
      OnlyPagesMint(s, b, t, k);
    } else if t.request.BlockForm? || t.request.ReissueForm? {
      CardPagesMintForCards(s, b, t, k, m, did);
    } else if t.request.SubAccountForm? {
      TextsAreUnambiguous(OpensSubAccount(t.request.m), FilesDispute(m, did));
    } else {
      var i := FindDispute(b.disputes, t.request.m, t.request.did).value;
      ReviewMintsOpenDisputes(s, b, t.request.m, i);
      PartsHaveNoColon(s, FilesDispute(t.request.m, b.disputes[i].id));
      TextsAreUnambiguous(FilesDispute(t.request.m, b.disputes[i].id), FilesDispute(m, did));
    }
  }

  // ----- What one request spends -----

  function Rows(b: Bank): nat {
    |b.filings| + |b.subAccounts| + |b.cardActions|
  }

  /** The post got past its token check. */
  predicate Spends(r: Request, reply: Reply) {
    (r.ConfirmSubAccount? || r.SubmitDispute? || r.FinishCardPost?) && reply != InvalidToken
  }

  /**
   * A post gets past the token check only with a live, unexpired token, which it takes away; without one no
   * row is written and no dispute or card changes, and with one at most one row is.
   */
  ghost predicate SpendLaw(b: Bank, b': Bank, r: Request, now: int, spends: bool) {
    if spends then
      && (r.ConfirmSubAccount? || r.SubmitDispute? || r.FinishCardPost?)
      && r.csrf.Some? && r.csrf.value in b.tokens && now <= b.tokens[r.csrf.value].expiresAt
      && b'.tokens == b.tokens - {r.csrf.value}
      && Rows(b') <= Rows(b) + 1
    else
      && Rows(b') == Rows(b) && b'.disputes == b.disputes && b'.cards == b.cards
      && |b'.tokens| <= |b.tokens| + if IsPage(r) && b'.tokens != b.tokens then 1 else 0
  }

  lemma ConsumingShrinks(tokens: map<string, Issued>, csrf: Option<string>, action: string, now: int)
    ensures var (rest, ok) := Consume(tokens, csrf, action, now);
            && |rest| <= |tokens|
            && (ok ==> csrf.Some? && csrf.value in tokens && tokens[csrf.value].action == action && now <= tokens[csrf.value].expiresAt
                       && rest == tokens - {csrf.value})
  {
    var rest := Consume(tokens, csrf, action, now).0;
    assert rest.Keys <= tokens.Keys;
    SubsetIsSmaller(rest.Keys, tokens.Keys);
  }

  lemma CardBodySpends(b: Bank, k: nat, csrf: Option<string>, now: int)
    requires k < |b.pending| && b.pending[k].card < |b.cards|
    ensures var (b', r) := CardBody(b, k, csrf, now); SpendLaw(b, b', FinishCardPost(k, csrf), now, r != InvalidToken)
  {
    hide ActionText, Trim, MarkBlocked, MarkReissued, MaxId, CaseText, Consume, HasAction;
    var p := b.pending[k];
    var card := b.cards[p.card];
    ConsumingShrinks(b.tokens, csrf, ActionText(BlocksCard(p.memberId, card.last4)), now);
    ConsumingShrinks(b.tokens, csrf, ActionText(ReissuesCard(p.memberId, card.last4)), now);
  }

  lemma PageMintsOne(s: Seeds, b: Bank, t: Turn)
    requires Enabled(b, t) && IsPage(t.request)
    ensures |Step(s, b, t).0.tokens| <= |b.tokens| + 1
  {
    hide ActionText, Trim, Admitted;
    var tokens := Step(s, b, t).0.tokens;
    assert tokens.Keys <= b.tokens.Keys + {t.request.token};
    SubsetIsSmaller(tokens.Keys, b.tokens.Keys + {t.request.token});
  }

  lemma PageSpendsNothing(s: Seeds, b: Bank, t: Turn)
    requires Enabled(b, t) && IsPage(t.request)
    ensures SpendLaw(b, Step(s, b, t).0, t.request, t.now, false)
  {
    hide Step, Enabled;
    PagesNeverWrite(s, b, t);
    PageMintsOne(s, b, t);
  }

  lemma SubAccountSpends(b: Bank, m: string, product: string, csrf: Option<string>, now: int)
    ensures var (b', r) := SubAccountConfirm(b, m, product, csrf, now);
            SpendLaw(b, b', ConfirmSubAccount(m, product, csrf), now, r != InvalidToken)
  {
    hide ActionText, Trim, Consume;
    ConsumingShrinks(b.tokens, csrf, ActionText(OpensSubAccount(m)), now);
  }

  lemma SubmitSpends(b: Bank, m: string, did: string, reason: string, csrf: Option<string>, now: int)
    ensures var (b', r) := DisputeSubmit(b, m, did, reason, csrf, now);
            SpendLaw(b, b', SubmitDispute(m, did, reason, csrf), now, r != InvalidToken)
  {
    hide ActionText, Trim, Consume, MarkFiled;
    ConsumingShrinks(b.tokens, csrf, ActionText(FilesDispute(m, did)), now);
  }

  lemma StartingSpendsNothing(s: Seeds, b: Bank, t: Turn)
    requires Enabled(b, t) && t.request.StartCardPost?
    ensures SpendLaw(b, Step(s, b, t).0, t.request, t.now, false)
  {
    hide Trim, Admitted;
  }

  lemma StepSpends(s: Seeds, b: Bank, t: Turn)
    requires Enabled(b, t) && !t.request.Reset?
    ensures SpendLaw(b, Step(s, b, t).0, t.request, t.now, Spends(t.request, Step(s, b, t).1))
  {
    hide SpendLaw, SubAccountConfirm, DisputeSubmit, CardBody;
    match t.request
    case ConfirmSubAccount(m, product, csrf) => SubAccountSpends(b, m, product, csrf, t.now);
    case SubmitDispute(m, did, reason, csrf) => SubmitSpends(b, m, did, reason, csrf, t.now);
    case FinishCardPost(k, csrf) => CardBodySpends(b, k, csrf, t.now);
    case StartCardPost(block, m, last4) => StartingSpendsNothing(s, b, t);
    case _ => PageSpendsNothing(s, b, t);
  }

  // ----- Whole runs -----

  /** A run: the requests, the bank in front of each and behind the last, and the replies. */
  datatype History = History(turns: seq<Turn>, banks: seq<Bank>, replies: seq<Reply>)

  ghost predicate Runs(s: Seeds, h: History) {
    && |h.banks| == |h.turns| + 1 && |h.replies| == |h.turns|
    && h.banks[0] == Start(s)
    && forall n: nat | n < |h.turns| :: Stepped(s, h, n)
  }

  predicate Stepped(s: Seeds, h: History, n: nat)
    requires n < |h.turns| && |h.banks| == |h.turns| + 1 && |h.replies| == |h.turns|
  {
    Enabled(h.banks[n], h.turns[n]) && Step(s, h.banks[n], h.turns[n]) == (h.banks[n + 1], h.replies[n])
  }

  lemma {:induction false} EveryRunKeepsInv(s: Seeds, h: History, n: nat)
    requires WellSeeded(s) && Runs(s, h) && n < |h.banks|
    ensures Inv(s, h.banks[n])
  {
    hide WellSeeded, Inv, Step, Enabled, Start;
    if n == 0 {
      StartIsSound(s, Start(s).lastId);
    } else {
      EveryRunKeepsInv(s, h, n - 1);
      assert Stepped(s, h, n - 1);
      StepKeepsInv(s, h.banks[n - 1], h.turns[n - 1]);
    }
  }

  /** What the tables of a bank may hold. */
  ghost predicate WritesAreSound(s: Seeds, b: Bank) {
    && (forall f | f in b.filings ::
          Active(s.members, f.memberId) && exists i: nat :: OpenAtSeed(s, i, f.memberId, f.disputeId))
    && (forall f, i | f in b.filings && 0 <= i < |s.disputes| && s.disputes[i].filed :: s.disputes[i].id != f.disputeId)
    && (forall i, j | 0 <= i < j < |b.filings| :: b.filings[i].disputeId != b.filings[j].disputeId)
    && (forall a | a in b.cardActions ::
          Active(s.members, a.memberId) && exists i: nat :: UsableAtSeed(s, i, a.memberId, a.last4))
  }

  /**
   * Although submit and confirm check nothing but the token: every filed row is for a dispute of an active
   * member that was open in the seeds, each dispute once, and every reissue is for a usable card of one.
   */
  lemma WritesAreForActiveMembers(s: Seeds, h: History, n: nat)
    requires WellSeeded(s) && Runs(s, h) && n < |h.banks|
    ensures WritesAreSound(s, h.banks[n])
  {
    hide Runs, Trim, Upper, Active, TokensOk, PendingOk;
    EveryRunKeepsInv(s, h, n);
    var b := h.banks[n];
    forall f, i | f in b.filings && 0 <= i < |s.disputes| && s.disputes[i].filed
      ensures s.disputes[i].id != f.disputeId
    {
      assert DeedOk(s, FilesDispute(f.memberId, f.disputeId));
      var k: nat :| OpenAtSeed(s, k, f.memberId, f.disputeId);
      assert k < i ==> Upper(s.disputes[k].id) != Upper(s.disputes[i].id);
      assert i < k ==> Upper(s.disputes[i].id) != Upper(s.disputes[k].id);
    }
  }

  /**
   * Sub-accounts: a row is for an active member exactly when its member id is not the name of an inherited
   * property; for such a name the lookup finds something without a status, and the gate lets it through.
   */
  lemma SubAccountsAreForActiveMembersUnlessInherited(s: Seeds, h: History, n: nat, r: SubAccount)
    requires WellSeeded(s) && Runs(s, h) && n < |h.banks| && r in h.banks[n].subAccounts
    requires forall m | m in s.members :: m.id !in INHERITED
    ensures Active(s.members, r.memberId) <==> Trim(r.memberId) !in INHERITED
  {
    hide Runs;
    EveryRunKeepsInv(s, h, n);
  }

  /** The gate of the review page, in full. */
  lemma SubAccountGate(s: Seeds, b: Bank, m: string, product: string, token: string, now: int)
    requires forall x | x in s.members :: x.id !in INHERITED
    ensures var (b', r) := SubAccountPage(s.members, b, m, true, product, token, now);
            && (r == Review <==> Trim(product) != "" && (Active(s.members, m) || Trim(m) in INHERITED))
            && (r != Review ==> b' == b)
            && (r == Review ==> token in b'.tokens && b'.tokens[token].action == ActionText(OpensSubAccount(m)))
  {
    hide Trim, Lower;
  }

  /** A run of two requests that opens a sub-account for nobody. */
  lemma NobodyGetsASubAccount(s: Seeds) returns (h: History)
    requires WellSeeded(s) && forall m | m in s.members :: m.id !in INHERITED
    ensures Runs(s, h) && |h.turns| == 2
    ensures h.banks[2].subAccounts == [SubAccount("constructor", "Certificate")] && !Active(s.members, "constructor")
  {
    hide Trim, Step, WellSeeded;
    var first := Turn(SubAccountForm("constructor", true, "Certificate", "t"), 0);
    var second := Turn(ConfirmSubAccount("constructor", "Certificate", Some("t")), 0);
    var (b, r) := Step(s, Start(s), first);
    var (c, q) := Step(s, b, second);
    h := History([first, second], [Start(s), b, c], [r, q]);
    assert Stepped(s, h, 0) && Stepped(s, h, 1);
    NobodysReview(s, "constructor", "Certificate", "t");
  }

  lemma NobodysReview(s: Seeds, m: string, product: string, token: string)
    requires m != "" && product != "" && token != "" && m in INHERITED && forall x | x in s.members :: x.id !in INHERITED
    requires !IsSpace(m[0]) && !IsSpace(m[|m| - 1]) && !IsSpace(product[0]) && !IsSpace(product[|product| - 1])
    ensures var b := Step(s, Start(s), Turn(SubAccountForm(m, true, product, token), 0)).0;
            Step(s, b, Turn(ConfirmSubAccount(m, product, Some(token)), 0)).0.subAccounts == [SubAccount(m, product)]
    ensures !Active(s.members, m)
  {
    hide Trim, ActionText;
    Outputs.TrimOfTight(m);
    Outputs.TrimOfTight(product);
    assert LookupMember(s.members, m) == Inherited;
  }

  /** At turn `i` a review page showed the dispute open and minted a token for it. */
  ghost predicate ReviewedAt(h: History, i: nat, m: string, did: string) {
    && i < |h.turns| && i < |h.banks| && i < |h.replies|
    && h.turns[i].request.DisputeForm? && h.turns[i].request.m == m && h.replies[i] == Review
    && ShowsOpen(h.banks[i], m, did)
  }

  ghost predicate ReviewedBefore(h: History, n: nat, m: string, did: string) {
    exists i: nat :: i < n && ReviewedAt(h, i, m, did)
  }

  /** Live dispute tokens and filed rows go back to a review of an open dispute. */
  ghost predicate Vouched(h: History, n: nat)
    requires n < |h.banks|
  {
    VouchedTokens(h, n, h.banks[n].tokens) && VouchedRows(h, n, h.banks[n].filings)
  }

  ghost predicate VouchedTokens(h: History, n: nat, tokens: map<string, Issued>) {
    forall t, m, did | t in tokens && tokens[t].action == ActionText(FilesDispute(m, did)) :: ReviewedBefore(h, n, m, did)
  }

  ghost predicate VouchedRows(h: History, n: nat, rows: seq<Filing>) {
    forall f | f in rows :: ReviewedBefore(h, n, f.memberId, f.disputeId)
  }

  lemma ReviewsStay(h: History, n: nat, m: string, did: string)
    requires ReviewedBefore(h, n, m, did)
    ensures ReviewedBefore(h, n + 1, m, did)
  {
    hide ReviewedAt;
  }

  lemma TokensStayVouched(s: Seeds, h: History, n: nat)
    requires WellSeeded(s) && Runs(s, h) && n < |h.turns| && Vouched(h, n) && Inv(s, h.banks[n])
    ensures VouchedTokens(h, n + 1, h.banks[n + 1].tokens)
  {
    hide Step, Enabled, Inv, WellSeeded, ActionText, ShowsOpen, VouchedRows;
    assert Stepped(s, h, n);
    var b, t, tokens := h.banks[n], h.turns[n], h.banks[n + 1].tokens;
    forall k, m, did | k in tokens && tokens[k].action == ActionText(FilesDispute(m, did))
      ensures ReviewedBefore(h, n + 1, m, did)
    {
      if k in b.tokens && b.tokens[k] == tokens[k] {
        ReviewsStay(h, n, m, did);
      } else {
        FreshTokenIsThisReview(s, b, t, k, m, did);
        assert ReviewedAt(h, n, m, did);
      }
    }
  }

  lemma RowsStayVouched(s: Seeds, h: History, n: nat)
    requires Runs(s, h) && n < |h.turns| && Vouched(h, n)
    ensures VouchedRows(h, n + 1, h.banks[n + 1].filings)
  {
    hide Step, Enabled, ActionText, ReviewedBefore;
    assert Stepped(s, h, n);
    RowsHaveASource(s, h.banks[n], h.turns[n]);
    forall f | f in h.banks[n + 1].filings
      ensures ReviewedBefore(h, n + 1, f.memberId, f.disputeId)
    {
      ReviewsStay(h, n, f.memberId, f.disputeId);
    }
  }

  lemma {:induction false} EveryRunIsVouched(s: Seeds, h: History, n: nat)
    requires WellSeeded(s) && Runs(s, h) && n < |h.banks|
    ensures Vouched(h, n)
  {
    if n > 0 {
      hide Inv, WellSeeded, VouchedTokens, VouchedRows;
      EveryRunIsVouched(s, h, n - 1);
      EveryRunKeepsInv(s, h, n - 1);
      TokensStayVouched(s, h, n - 1);
      RowsStayVouched(s, h, n - 1);
    }
  }

  /** Every filed row goes back to an earlier review page that showed the dispute open. */
  lemma FilingsWereReviewedOpen(s: Seeds, h: History, n: nat, f: Filing)
    requires WellSeeded(s) && Runs(s, h) && n < |h.banks| && f in h.banks[n].filings
    ensures exists i: nat :: i < n && ReviewedAt(h, i, f.memberId, f.disputeId)
  {
    hide Runs;
    EveryRunIsVouched(s, h, n);
  }

  // ----- Tokens are spent once -----

  /** What turn `n` does to tokens and tables. */
  ghost predicate SpendsAt(h: History, n: nat)
    requires n < |h.turns| && n + 1 < |h.banks| && n < |h.replies|
  {
    SpendLaw(h.banks[n], h.banks[n + 1], h.turns[n].request, h.turns[n].now, Spends(h.turns[n].request, h.replies[n]))
  }

  lemma WritesSpendTheirToken(s: Seeds, h: History, n: nat)
    requires Runs(s, h) && n < |h.turns| && !h.turns[n].request.Reset?
    ensures SpendsAt(h, n)
  {
    hide Step, SpendLaw, Enabled;
    assert Stepped(s, h, n);
    StepSpends(s, h.banks[n], h.turns[n]);
  }

  /** Tokens spent in front of turn `n`, since the last reset. */
  function Spent(h: History, n: nat): nat
    requires n <= |h.turns| == |h.replies|
  {
    if n == 0 || h.turns[n - 1].request.Reset? then 0
    else Spent(h, n - 1) + if Spends(h.turns[n - 1].request, h.replies[n - 1]) then 1 else 0
  }

  /** Pages that minted a token, since the last reset. */
  function Minted(h: History, n: nat): nat
    requires n <= |h.turns| < |h.banks|
  {
    if n == 0 || h.turns[n - 1].request.Reset? then 0
    else
      Minted(h, n - 1)
      + if IsPage(h.turns[n - 1].request) && h.banks[n].tokens != h.banks[n - 1].tokens then 1 else 0
  }

  /** Rows never outnumber the tokens spent, nor spent and live tokens the pages that minted them. */
  lemma {:induction false} RowsNeverOutnumberTokens(s: Seeds, h: History, n: nat)
    requires Runs(s, h) && n <= |h.turns|
    ensures Rows(h.banks[n]) <= Spent(h, n)
    ensures |h.banks[n].tokens| + Spent(h, n) <= Minted(h, n)
  {
    if n > 0 {
      assert Stepped(s, h, n - 1);
      if !h.turns[n - 1].request.Reset? {
        hide Step, Enabled;
        RowsNeverOutnumberTokens(s, h, n - 1);
        WritesSpendTheirToken(s, h, n - 1);
      }
    }
  }

  // ----- The life of a card -----

  lemma CaseTextsDiffer(a: nat, b: nat)
    requires CaseText(a) == CaseText(b)
    ensures a == b
  {
    hide Decimal;
    assert CaseText(a)[5..] == Decimal(88000 + a + 1) && CaseText(b)[5..] == Decimal(88000 + b + 1);
    Outputs.ValueOfDecimal(88000 + a + 1);
    Outputs.ValueOfDecimal(88000 + b + 1);
  }

  /**
   * A row means its card was usable at the start and is now blocked, done and carries the row's case number;
   * usable and seed-blocked cards have no row; business and seed-blocked cards never change; no two rows share
   * a case number.
   */
  ghost predicate CardsAreSound(s: Seeds, b: Bank) {
    && |b.cards| == |s.cards|
    && (forall i | 0 <= i < |b.cards| && (s.cards[i].business || s.cards[i].blocked) ::
          b.cards[i] == s.cards[i] && !HasRow(b.cardActions, b.cards[i]))
    && (forall i | 0 <= i < |b.cards| && !b.cards[i].blocked :: !HasRow(b.cardActions, b.cards[i]))
    && (forall i, a | 0 <= i < |b.cards| && a in b.cardActions && RowFor(a, b.cards[i]) ::
          b.cards[i] == Reissued(s.cards[i], a.caseNumber) && !s.cards[i].business)
    && (forall i, j | 0 <= i < j < |b.cardActions| :: b.cardActions[i].caseNumber != b.cardActions[j].caseNumber)
  }

  /** The life of a card, over every run. */
  lemma CardLifeCycle(s: Seeds, h: History, n: nat)
    requires WellSeeded(s) && Runs(s, h) && n < |h.banks|
    ensures CardsAreSound(s, h.banks[n])
  {
    hide Runs, Trim, DeedOk, CaseText, TokensOk, DisputesOk, PendingOk;
    EveryRunKeepsInv(s, h, n);
    var b := h.banks[n];
    forall i | 0 <= i < |b.cards|
      ensures CardOk(s.cards[i], b.cards[i], b.cardActions) && s.cards[i] in s.cards
    {
    }
    forall i, a | 0 <= i < |b.cards| && a in b.cardActions && RowFor(a, b.cards[i])
      ensures b.cards[i] == Reissued(s.cards[i], a.caseNumber) && !s.cards[i].business
    {
      RowsCardIsDone(s, b.cards, b.cardActions, b.lastId, i, a);
    }
    forall i, j | 0 <= i < j < |b.cardActions|
      ensures b.cardActions[i].caseNumber != b.cardActions[j].caseNumber
    {
      CaseNumbersDiffer(s, b.cardActions, b.lastId, i, j);
    }
  }

  lemma RowsCardIsDone(s: Seeds, cards: seq<Card>, rows: seq<CardAction>, lastId: nat, i: nat, a: CardAction)
    requires CardsOk(s, cards, rows, lastId) && i < |cards| && a in rows && RowFor(a, cards[i])
    ensures cards[i] == Reissued(s.cards[i], a.caseNumber) && !s.cards[i].business
  {
    hide Trim, DeedOk, CaseText;
    assert CardOk(s.cards[i], cards[i], rows);
    assert HasRow(rows, cards[i]);
    var c :| c in rows && RowFor(c, cards[i]) && cards[i].caseNumber == Some(c.caseNumber);
    var x: nat :| x < |rows| && rows[x] == c;
    var y: nat :| y < |rows| && rows[y] == a;
    assert x == y;
  }

  lemma CaseNumbersDiffer(s: Seeds, rows: seq<CardAction>, lastId: nat, i: nat, j: nat)
    requires ActionsOk(s, rows, lastId) && i < j < |rows|
    ensures rows[i].caseNumber != rows[j].caseNumber
  {
    hide Trim, DeedOk, CaseText;
    assert rows[j - 1] in rows && (i > 0 ==> rows[i - 1] in rows);
    if rows[i].caseNumber == rows[j].caseNumber {
      CaseTextsDiffer(if i == 0 then 0 else rows[i - 1].id, rows[j - 1].id);
    }
  }

  /** The branch for a duplicate reissue is never taken, in any run. */
  lemma DuplicateReissueIsUnreachable(s: Seeds, h: History, n: nat)
    requires WellSeeded(s) && Runs(s, h) && n < |h.turns|
    ensures !h.replies[n].AlreadyReissued?
  {
    hide Step, Inv, Enabled, WellSeeded;
    EveryRunKeepsInv(s, h, n);
    assert Stepped(s, h, n);
    StepKeepsInv(s, h.banks[n], h.turns[n]);
  }

  // ----- The shipped data -----

  const CORE: seq<Member> := [
    Member("12345", "Jane Doe", true), Member("67890", "John Smith", true), Member("55555", "Restricted Member", false)]

  const DOE_GIVEN: seq<string> := [
    "Alan", "Beth", "Carl", "Dana", "Evan", "Faye", "Gus", "Hana", "Ivan", "Jade", "Kurt", "Lila", "Nate"]

  const MEMBERS: seq<Member> :=
    CORE + seq(|DOE_GIVEN|, i requires 0 <= i < |DOE_GIVEN| => Member(Decimal(20001 + i), DOE_GIVEN[i] + " Doe", true))

  function SeedDispute(i: nat): Dispute {
    Dispute("DSP-" + Decimal(1001 + i), "12345", i == 1, if i == 1 then Some("CASE-66110") else None)
  }

  const DISPUTES: seq<Dispute> := seq(12, i requires 0 <= i => SeedDispute(i))

  const CARDS: seq<Card> := [
    Card("12345", "4412", false, false, None, false),
    Card("12345", "7788", true, false, None, false),
    Card("12345", "3301", false, true, None, false)]

  lemma UpperKeepsIds(n: nat)
    ensures Upper("DSP-" + Decimal(n)) == "DSP-" + Decimal(n)
  {
    hide Decimal;
    var id := "DSP-" + Decimal(n);
    assert forall c | c in Decimal(n) :: IsDigit(c);
    assert forall i | 4 <= i < |id| :: id[i] == Decimal(n)[i - 4] && id[i] in Decimal(n);
  }

  lemma IdsDiffer(a: nat, b: nat)
    requires "DSP-" + Decimal(a) == "DSP-" + Decimal(b)
    ensures a == b
  {
    hide Decimal;
    assert ("DSP-" + Decimal(a))[4..] == Decimal(a) && ("DSP-" + Decimal(b))[4..] == Decimal(b);
    Outputs.ValueOfDecimal(a);
    Outputs.ValueOfDecimal(b);
  }

  lemma MembersAreSound()
    ensures forall m | m in MEMBERS :: ':' !in m.id && m.id !in INHERITED
    ensures KnownId(MEMBERS, "12345")
  {
    hide Decimal;
    forall m | m in MEMBERS
      ensures ':' !in m.id && m.id !in INHERITED
    {
      assert m in CORE || AllDigits(m.id);
      assert m.id[0] in m.id && IsDigit(m.id[0]);
    }
    assert MEMBERS[0] == CORE[0];
    assert MEMBERS[0] in MEMBERS;
  }

  lemma SeedDisputeIsSound(i: nat)
    ensures var id := SeedDispute(i).id; ':' !in id && Trim(id) == id
  {
    hide Decimal;
    var digits := Decimal(1001 + i);
    var id := "DSP-" + digits;
    assert AllDigits(digits);
    assert forall c | c in id :: c in "DSP-" || c in digits;
    assert id[|id| - 1] == digits[|digits| - 1];
    assert digits[|digits| - 1] in digits;
    Outputs.TrimOfTight(id);
  }

  lemma ShippedCardsAreSound()
    ensures forall c | c in CARDS :: ':' !in c.last4 && Trim(c.last4) == c.last4 && !c.reissueReady && c.memberId == "12345"
  {
    hide Trim;
    forall c | c in CARDS
      ensures Trim(c.last4) == c.last4
    {
      Outputs.TrimOfTight(c.last4);
    }
  }

  /** The data the console ships with meets every assumption above. */
  lemma ShippedDataIsWellSeeded()
    ensures WellSeeded(Seeds(MEMBERS, DISPUTES, CARDS)) && forall m | m in MEMBERS :: m.id !in INHERITED
  {
    hide Decimal, Trim, Upper, KnownId, MEMBERS;
    MembersAreSound();
    ShippedCardsAreSound();
    forall d | d in DISPUTES
      ensures ':' !in d.id && Trim(d.id) == d.id && KnownId(MEMBERS, d.memberId)
    {
      var i: nat :| i < 12 && d == DISPUTES[i];
      SeedDisputeIsSound(i);
    }
    forall i, j | 0 <= i < j < |DISPUTES|
      ensures Upper(DISPUTES[i].id) != Upper(DISPUTES[j].id)
    {
      UpperKeepsIds(1001 + i);
      UpperKeepsIds(1001 + j);
      if DISPUTES[i].id == DISPUTES[j].id {
        IdsDiffer(1001 + i, 1001 + j);
      }
    }
  }
}
