/**
 * The write path of the bank console: `apps/bank-console/server.ts` and its stores.
 *
 * A function per handler says what a request does to the bank; `ConsoleServer` does it step by step on the
 * stores. Card posts are cut in two at the await of the request body.
 */
module Console {
  import opened Prelude
  import opened Text

  // ----- Members -----

  datatype Member = Member(id: string, name: string, active: bool)

  /** Names every plain object inherits: `MEMBERS[q]` finds them although no member has that id. */
  const INHERITED: set<string> := {
    "constructor", "hasOwnProperty", "isPrototypeOf", "propertyIsEnumerable", "toLocaleString", "toString",
    "valueOf", "__proto__", "__defineGetter__", "__defineSetter__", "__lookupGetter__", "__lookupSetter__"}

  datatype Found = Missing | Inherited | Row(member: Member)

  function WithId(members: seq<Member>, id: string): (r: Option<Member>)
    ensures r.Some? ==> r.value in members && r.value.id == id
    ensures r.None? ==> forall m | m in members :: m.id != id
  {
    if members == [] then None
    else if members[0].id == id then Some(members[0])
    else WithId(members[1..], id)
  }

  function WithName(members: seq<Member>, lower: string): (r: Option<Member>)
    ensures r.Some? ==> r.value in members && Lower(r.value.name) == lower
    ensures r.None? ==> forall m | m in members :: Lower(m.name) != lower
  {
    if members == [] then None
    else if Lower(members[0].name) == lower then Some(members[0])
    else WithName(members[1..], lower)
  }

  function LookupMember(members: seq<Member>, id: string): Found {
    var q := Trim(id);
    var own := WithId(members, q);
    if own.Some? then Row(own.value)
    else if q in INHERITED then Inherited
    else
      var named := WithName(members, Lower(q));
      if named.Some? then Row(named.value) else Missing
  }

  /** The handlers' own gate: found, and not of restricted status. An inherited name has no status at all. */
  predicate Admitted(members: seq<Member>, id: string) {
    match LookupMember(members, id)
    case Missing => false
    case Inherited => true
    case Row(m) => m.active
  }

  // ----- The tables -----

  datatype Issued = Issued(action: string, expiresAt: int)

  datatype Dispute = Dispute(id: string, memberId: string, filed: bool, caseNumber: Option<string>)

  datatype Card = Card(
    memberId: string,
    last4: string,
    blocked: bool,
    business: bool,
    caseNumber: Option<string>,
    reissueReady: bool)

  datatype Filing = Filing(disputeId: string, memberId: string, reason: string)

  datatype SubAccount = SubAccount(memberId: string, product: string)

  datatype CardAction = CardAction(id: nat, memberId: string, last4: string, caseNumber: string)

  /** A card post between its lookups and its body; `card` is the row it holds on to. */
  datatype Pending = Pending(block: bool, memberId: string, card: nat)

  datatype Bank = Bank(
    tokens: map<string, Issued>,
    disputes: seq<Dispute>,
    filings: seq<Filing>,
    subAccounts: seq<SubAccount>,
    cards: seq<Card>,
    cardActions: seq<CardAction>,
    lastId: nat,
    pending: seq<Pending>)

  const TOKEN_TTL := 900000

  const DISPUTE_CASE := "CASE-77201"

  function Consume(tokens: map<string, Issued>, csrf: Option<string>, action: string, now: int): (map<string,
      Issued>, bool) {
    if csrf.None? || csrf.value == "" then (tokens, false)
    else
      (tokens - {csrf.value},
       csrf.value in tokens && tokens[csrf.value].action == action && now <= tokens[csrf.value].expiresAt)
  }

  /** First dispute of the member with that id, whatever its case; `rows.find` over an index. */
  function FindDispute(rows: seq<Dispute>, memberId: string, disputeId: string, from: nat := 0): (r: Option<nat>)
    ensures r.Some? ==> from <= r.value < |rows| && rows[r.value].memberId == Trim(memberId)
                        && Upper(rows[r.value].id) == Upper(Trim(disputeId))
    decreases |rows| - from
  {
    if from >= |rows| then None
    else if rows[from].memberId == Trim(memberId) && Upper(rows[from].id) == Upper(Trim(disputeId)) then Some(from)
    else FindDispute(rows, memberId, disputeId, from + 1)
  }

  function DisputeById(rows: seq<Dispute>, disputeId: string, from: nat := 0): (r: Option<nat>)
    ensures r.Some? ==> from <= r.value < |rows| && Upper(rows[r.value].id) == Upper(Trim(disputeId))
    ensures r.None? ==> forall k | from <= k < |rows| :: Upper(rows[k].id) != Upper(Trim(disputeId))
    decreases |rows| - from
  {
    if from >= |rows| then None
    else if Upper(rows[from].id) == Upper(Trim(disputeId)) then Some(from)
    else DisputeById(rows, disputeId, from + 1)
  }

  function MarkFiled(rows: seq<Dispute>, disputeId: string): seq<Dispute> {
    var i := DisputeById(rows, disputeId);
    if i.None? then rows else rows[i.value := rows[i.value].(filed := true, caseNumber := Some(DISPUTE_CASE))]
  }

  function FindCard(rows: seq<Card>, memberId: string, last4: string, from: nat := 0): (r: Option<nat>)
    ensures r.Some? ==> from <= r.value < |rows| && rows[r.value].memberId == Trim(memberId) && rows[r.value].last4 == Trim(last4)
    ensures r.None? ==> forall k | from <= k < |rows| :: rows[k].memberId != Trim(memberId) || rows[k].last4 != Trim(last4)
    decreases |rows| - from
  {
    if from >= |rows| then None
    else if rows[from].memberId == Trim(memberId) && rows[from].last4 == Trim(last4) then Some(from)
    else FindCard(rows, memberId, last4, from + 1)
  }

  function MarkBlocked(rows: seq<Card>, memberId: string, last4: string): seq<Card> {
    var i := FindCard(rows, memberId, last4);
    if i.None? then rows else rows[i.value := rows[i.value].(blocked := true, reissueReady := true)]
  }

  function MarkReissued(rows: seq<Card>, memberId: string, last4: string, caseNumber: string): seq<Card> {
    var i := FindCard(rows, memberId, last4);
    if i.None? then rows
    else rows[i.value := rows[i.value].(blocked := true, caseNumber := Some(caseNumber), reissueReady := false)]
  }

  function MaxId(rows: seq<CardAction>): nat {
    if rows == [] then 0
    else
      var m, id := MaxId(rows[..|rows| - 1]), rows[|rows| - 1].id;
      if m < id then id else m
  }

  function CaseText(n: nat): string {
    "CASE-" + Decimal(88000 + n + 1)
  }

  function HasAction(rows: seq<CardAction>, memberId: string, last4: string): bool {
    exists a | a in rows :: a.memberId == memberId && a.last4 == last4
  }

  function FirstAction(rows: seq<CardAction>, memberId: string, last4: string): Option<CardAction> {
    if rows == [] then None
    else if rows[0].memberId == memberId && rows[0].last4 == last4 then Some(rows[0])
    else FirstAction(rows[1..], memberId, last4)
  }

  predicate HasFiling(rows: seq<Filing>, disputeId: string) {
    exists f | f in rows :: f.disputeId == disputeId
  }

  // ----- What a token is for -----

  datatype Deed =
    | OpensSubAccount(member: string)
    | FilesDispute(member: string, dispute: string)
    | BlocksCard(member: string, last4: string)
    | ReissuesCard(member: string, last4: string)

  function ActionText(d: Deed): string {
    match d
    case OpensSubAccount(m) => "sub-account:" + m
    case FilesDispute(m, dispute) => "dispute:" + m + ":" + dispute
    case BlocksCard(m, last4) => "block:" + m + ":" + last4
    case ReissuesCard(m, last4) => "reissue:" + m + ":" + last4
  }

  // ----- The handlers -----

  datatype Reply =
    | TurnedAway
    | NoSuchRow
    | Form
    | Review
    | InvalidToken
    | Detail
    | BusinessPage
    | AwaitsBody
    | ToBlock
    | ToReissue
    | Written
    | AlreadyFiled
    | AlreadyReissued(caseNumber: string)

  function Mint(b: Bank, token: string, deed: Deed, now: int): Bank {
    b.(tokens := b.tokens[token := Issued(ActionText(deed), now + TOKEN_TTL)])
  }

  function SubAccountPage(members: seq<Member>, b: Bank, m: string, review: bool, product: string, token: string,
      now: int): (Bank, Reply) {
    if !Admitted(members, m) then (b, TurnedAway)
    else if !review || Trim(product) == "" then (b, Form)
    else (Mint(b, token, OpensSubAccount(m), now), Review)
  }

  function SubAccountConfirm(b: Bank, m: string, product: string, csrf: Option<string>, now: int): (Bank, Reply) {
    var (tokens, ok) := Consume(b.tokens, csrf, ActionText(OpensSubAccount(m)), now);
    if !ok then (b.(tokens := tokens), InvalidToken)
    else (b.(tokens := tokens, subAccounts := b.subAccounts + [SubAccount(m, Trim(product))]), Written)
  }

  function DisputePage(members: seq<Member>, b: Bank, m: string, did: string, review: bool, reason: string,
      token: string, now: int): (Bank, Reply) {
    if !Admitted(members, m) then (b, TurnedAway)
    else
      var i := FindDispute(b.disputes, m, did);
      if i.None? then (b, NoSuchRow)
      else if b.disputes[i.value].filed then (b, Detail)
      else if !review || Trim(reason) == "" then (b, Form)
      else (Mint(b, token, FilesDispute(m, b.disputes[i.value].id), now), Review)
  }

  function DisputeSubmit(b: Bank, m: string, did: string, reason: string, csrf: Option<string>, now: int): (Bank, Reply) {
    var (tokens, ok) := Consume(b.tokens, csrf, ActionText(FilesDispute(m, did)), now);
    if !ok then (b.(tokens := tokens), InvalidToken)
    else if HasFiling(b.filings, did) then (b.(tokens := tokens, disputes := MarkFiled(b.disputes, did)), AlreadyFiled)
    else
      (b.(tokens := tokens, filings := b.filings + [Filing(did, m, Trim(reason))], disputes := MarkFiled(b.disputes, did)), Written)
  }

  function BlockPage(members: seq<Member>, b: Bank, m: string, last4: string, token: string, now: int): (Bank, Reply) {
    if !Admitted(members, m) then (b, TurnedAway)
    else
      var i := FindCard(b.cards, m, last4);
      if i.None? then (b, NoSuchRow)
      else if b.cards[i.value].business then (b, BusinessPage)
      else if b.cards[i.value].blocked then (b, Detail)
      else (Mint(b, token, BlocksCard(m, b.cards[i.value].last4), now), Form)
  }

  function ReissuePage(members: seq<Member>, b: Bank, m: string, last4: string, token: string, now: int): (Bank, Reply) {
    if !Admitted(members, m) then (b, TurnedAway)
    else
      var i := FindCard(b.cards, m, last4);
      if i.None? then (b, NoSuchRow)
      else
        var card := b.cards[i.value];
        if card.business then (b, BusinessPage)
        else if HasAction(b.cardActions, m, card.last4) || (card.caseNumber.Some? && card.caseNumber.value != "") then (b, Detail)
        else if !card.blocked || !card.reissueReady then (b, ToBlock)
        else (Mint(b, token, ReissuesCard(m, card.last4), now), Form)
  }

  /** The part of a card post in front of `await readBody`. */
  function CardPost(members: seq<Member>, b: Bank, block: bool, m: string, last4: string): (Bank, Reply) {
    if !Admitted(members, m) then (b, TurnedAway)
    else
      var i := FindCard(b.cards, m, last4);
      if i.None? then (b, NoSuchRow) else (b.(pending := b.pending + [Pending(block, m, i.value)]), AwaitsBody)
  }

  function BlockBody(b: Bank, m: string, at: nat, csrf: Option<string>, now: int): (Bank, Reply)
    requires at < |b.cards|
  {
    var card := b.cards[at];
    var (tokens, ok) := Consume(b.tokens, csrf, ActionText(BlocksCard(m, card.last4)), now);
    var b' := b.(tokens := tokens);
    if !ok then (b', InvalidToken)
    else if card.business then (b', BusinessPage)
    else if card.blocked then (b', Detail)
    else (b'.(cards := MarkBlocked(b.cards, m, card.last4)), ToReissue)
  }

  function ReissueBody(b: Bank, m: string, at: nat, csrf: Option<string>, now: int): (Bank, Reply)
    requires at < |b.cards|
  {
    var card := b.cards[at];
    var (tokens, ok) := Consume(b.tokens, csrf, ActionText(ReissuesCard(m, card.last4)), now);
    var b' := b.(tokens := tokens);
    if !ok then (b', InvalidToken)
    else if card.business then (b', BusinessPage)
    else if !card.blocked || !card.reissueReady then (b', ToBlock)
    else if HasAction(b.cardActions, m, card.last4) then
      var existing := FirstAction(b.cardActions, m, card.last4);
      var caseNumber := if existing.Some? then existing.value.caseNumber else card.caseNumber.Or("CASE-88001");
      (b'.(cards := MarkReissued(b.cards, m, card.last4, caseNumber)), AlreadyReissued(caseNumber))
    else
      var caseNumber := CaseText(MaxId(b.cardActions));
      (b'.(cardActions := b.cardActions + [CardAction(b.lastId + 1, m, card.last4, caseNumber)],
           lastId := b.lastId + 1,
           cards := MarkReissued(b.cards, m, card.last4, caseNumber)),
       Written)
  }

  /** The part of a card post behind the await, for the `k`-th post that waits. */
  function CardBody(b: Bank, k: nat, csrf: Option<string>, now: int): (Bank, Reply)
    requires k < |b.pending| && b.pending[k].card < |b.cards|
  {
    var p := b.pending[k];
    var b' := b.(pending := b.pending[..k] + b.pending[k + 1..]);
    if p.block then BlockBody(b', p.memberId, p.card, csrf, now) else ReissueBody(b', p.memberId, p.card, csrf, now)
  }

  // ----- The stores, updated in place -----

  class FormTokenStore {
    var tokens: map<string, Issued>

    constructor ()
      ensures tokens == map[]
    {
      tokens := map[];
    }

    method Issue(token: string, action: string, now: int)
      modifies this
      ensures tokens == old(tokens)[token := Issued(action, now + TOKEN_TTL)]
    {
      tokens := tokens[token := Issued(action, now + TOKEN_TTL)];
    }

    method Reset()
      modifies this
      ensures tokens == map[]
    {
      tokens := map[];
    }

    /** Whatever it is for, a presented token is gone afterwards. */
    method Spend(csrf: Option<string>, action: string, now: int) returns (ok: bool)
      modifies this
      ensures (tokens, ok) == Consume(old(tokens), csrf, action, now)
    {
      if csrf.None? || csrf.value == "" {
        return false;
      }
      var token := csrf.value;
      if token !in tokens {
        assert tokens - {token} == tokens;
        return false;
      }
      var issued := tokens[token];
      tokens := tokens - {token};
      if issued.action != action {
        return false;
      }
      return issued.expiresAt >= now;
    }
  }

  class FilingsStore {
    var filings: seq<Filing>
    var subAccounts: seq<SubAccount>

    constructor ()
      ensures filings == [] && subAccounts == []
    {
      filings, subAccounts := [], [];
    }

    /** `false` is the violated UNIQUE constraint on the dispute id. */
    method Insert(row: Filing) returns (ok: bool)
      modifies this`filings
      ensures ok <==> !HasFiling(old(filings), row.disputeId)
      ensures filings == if ok then old(filings) + [row] else old(filings)
    {
      ok := !HasFiling(filings, row.disputeId);
      if ok {
        filings := filings + [row];
      }
    }

    method Reset()
      modifies this
      ensures filings == [] && subAccounts == []
    {
      filings, subAccounts := [], [];
    }

    method InsertSubAccount(row: SubAccount)
      modifies this`subAccounts
      ensures subAccounts == old(subAccounts) + [row]
    {
      subAccounts := subAccounts + [row];
    }
  }

  class CardActionsStore {
    var rows: seq<CardAction>
    var lastId: nat

    constructor ()
      ensures rows == [] && lastId == 0
    {
      rows, lastId := [], 0;
    }

    /** The rows go; the AUTOINCREMENT counter stays. */
    method Reset()
      modifies this`rows
      ensures rows == []
    {
      rows := [];
    }

    /** `None` is the violated UNIQUE constraint on member and card. */
    method Insert(memberId: string, last4: string) returns (r: Option<CardAction>)
      modifies this
      ensures r.None? <==> HasAction(old(rows), memberId, last4)
      ensures r.None? ==> rows == old(rows) && lastId == old(lastId)
      ensures r.Some? ==>
                && r.value == CardAction(old(lastId) + 1, memberId, last4, CaseText(MaxId(old(rows))))
                && rows == old(rows) + [r.value] && lastId == old(lastId) + 1
    {
      var caseNumber := CaseText(MaxId(rows));
      if HasAction(rows, memberId, last4) {
        return None;
      }
      lastId := lastId + 1;
      var row := CardAction(lastId, memberId, last4, caseNumber);
      rows := rows + [row];
      return Some(row);
    }
  }

  class ConsoleServer {
    const members: seq<Member>
    const tokens: FormTokenStore
    const filings: FilingsStore
    const cardActions: CardActionsStore
    var disputes: seq<Dispute>
    var cards: seq<Card>
    var pending: seq<Pending>

    constructor (members: seq<Member>, disputes: seq<Dispute>, cards: seq<Card>)
      ensures this.members == members && View() == Bank(map[], disputes, [], [], cards, [], 0, [])
      ensures fresh(tokens) && fresh(filings) && fresh(cardActions)
    {
      this.members, this.disputes, this.cards, pending := members, disputes, cards, [];
      tokens := new FormTokenStore();
      filings := new FilingsStore();
      cardActions := new CardActionsStore();
    }

    function View(): Bank
      reads this, tokens, filings, cardActions
    {
      Bank(tokens.tokens, disputes, filings.filings, filings.subAccounts, cards, cardActions.rows, cardActions.lastId, pending)
    }

    method GetSubAccount(m: string, review: bool, product: string, token: string, now: int) returns (r: Reply)
      modifies tokens
      ensures (View(), r) == SubAccountPage(members, old(View()), m, review, product, token, now)
    {
      if !Admitted(members, m) {
        return TurnedAway;
      }
      if !review || Trim(product) == "" {
        return Form;
      }
      tokens.Issue(token, ActionText(OpensSubAccount(m)), now);
      return Review;
    }

    method PostSubAccount(m: string, product: string, csrf: Option<string>, now: int) returns (r: Reply)
      modifies tokens, filings
      ensures (View(), r) == SubAccountConfirm(old(View()), m, product, csrf, now)
    {
      var ok := tokens.Spend(csrf, ActionText(OpensSubAccount(m)), now);
      if !ok {
        return InvalidToken;
      }
      filings.InsertSubAccount(SubAccount(m, Trim(product)));
      return Written;
    }

    method GetDisputeFile(m: string, did: string, review: bool, reason: string, token: string, now: int) returns (r: Reply)
      modifies tokens
      ensures (View(), r) == DisputePage(members, old(View()), m, did, review, reason, token, now)
    {
      if !Admitted(members, m) {
        return TurnedAway;
      }
      var i := FindDispute(disputes, m, did);
      if i.None? {
        return NoSuchRow;
      }
      if disputes[i.value].filed {
        return Detail;
      }
      if !review || Trim(reason) == "" {
        return Form;
      }
      tokens.Issue(token, ActionText(FilesDispute(m, disputes[i.value].id)), now);
      return Review;
    }

    method PostDispute(m: string, did: string, reason: string, csrf: Option<string>, now: int) returns (r: Reply)
      modifies this`disputes, tokens, filings
      ensures (View(), r) == DisputeSubmit(old(View()), m, did, reason, csrf, now)
    {
      var ok := tokens.Spend(csrf, ActionText(FilesDispute(m, did)), now);
      if !ok {
        return InvalidToken;
      }
      var inserted := filings.Insert(Filing(did, m, Trim(reason)));
      disputes := MarkFiled(disputes, did);
      return if inserted then Written else AlreadyFiled;
    }

    method GetBlock(m: string, last4: string, token: string, now: int) returns (r: Reply)
      modifies tokens
      ensures (View(), r) == BlockPage(members, old(View()), m, last4, token, now)
    {
      if !Admitted(members, m) {
        return TurnedAway;
      }
      var i := FindCard(cards, m, last4);
      if i.None? {
        return NoSuchRow;
      }
      if cards[i.value].business {
        return BusinessPage;
      }
      if cards[i.value].blocked {
        return Detail;
      }
      tokens.Issue(token, ActionText(BlocksCard(m, cards[i.value].last4)), now);
      return Form;
    }

    method GetReissue(m: string, last4: string, token: string, now: int) returns (r: Reply)
      modifies tokens
      ensures (View(), r) == ReissuePage(members, old(View()), m, last4, token, now)
    {
      if !Admitted(members, m) {
        return TurnedAway;
      }
      var i := FindCard(cards, m, last4);
      if i.None? {
        return NoSuchRow;
      }
      var card := cards[i.value];
      if card.business {
        return BusinessPage;
      }
      if HasAction(cardActions.rows, m, card.last4) || (card.caseNumber.Some? && card.caseNumber.value != "") {
        return Detail;
      }
      if !card.blocked || !card.reissueReady {
        return ToBlock;
      }
      tokens.Issue(token, ActionText(ReissuesCard(m, card.last4)), now);
      return Form;
    }

    method PostCard(block: bool, m: string, last4: string) returns (r: Reply)
      modifies this`pending
      ensures (View(), r) == CardPost(members, old(View()), block, m, last4)
    {
      if !Admitted(members, m) {
        return TurnedAway;
      }
      var i := FindCard(cards, m, last4);
      if i.None? {
        return NoSuchRow;
      }
      pending := pending + [Pending(block, m, i.value)];
      return AwaitsBody;
    }

    method FinishBlock(m: string, at: nat, csrf: Option<string>, now: int) returns (r: Reply)
      requires at < |cards|
      modifies this`cards, tokens
      ensures (View(), r) == BlockBody(old(View()), m, at, csrf, now)
    {
      var card := cards[at];
      var ok := tokens.Spend(csrf, ActionText(BlocksCard(m, card.last4)), now);
      if !ok {
        return InvalidToken;
      }
      if card.business {
        return BusinessPage;
      }
      if card.blocked {
        return Detail;
      }
      cards := MarkBlocked(cards, m, card.last4);
      return ToReissue;
    }

    method FinishReissue(m: string, at: nat, csrf: Option<string>, now: int) returns (r: Reply)
      requires at < |cards|
      modifies this`cards, tokens, cardActions
      ensures (View(), r) == ReissueBody(old(View()), m, at, csrf, now)
    {
      var card := cards[at];
      var ok := tokens.Spend(csrf, ActionText(ReissuesCard(m, card.last4)), now);
      if !ok {
        return InvalidToken;
      }
      if card.business {
        return BusinessPage;
      }
      if !card.blocked || !card.reissueReady {
        return ToBlock;
      }
      var action := cardActions.Insert(m, card.last4);
      if action.None? {
        var existing := FirstAction(cardActions.rows, m, card.last4);
        var caseNumber := if existing.Some? then existing.value.caseNumber else card.caseNumber.Or("CASE-88001");
        cards := MarkReissued(cards, m, card.last4, caseNumber);
        return AlreadyReissued(caseNumber);
      }
      cards := MarkReissued(cards, m, card.last4, action.value.caseNumber);
      return Written;
    }

    /** The body of the `k`-th waiting card post arrives. */
    method FinishCard(k: nat, csrf: Option<string>, now: int) returns (r: Reply)
      requires k < |pending| && pending[k].card < |cards|
      modifies this, tokens, cardActions
      ensures (View(), r) == CardBody(old(View()), k, csrf, now)
    {
      var p := pending[k];
      pending := pending[..k] + pending[k + 1..];
      if p.block {
        r := FinishBlock(p.memberId, p.card, csrf, now);
      } else {
        r := FinishReissue(p.memberId, p.card, csrf, now);
      }
    }

    method Reset(seedDisputes: seq<Dispute>, seedCards: seq<Card>)
      modifies this`disputes, this`cards, tokens, filings, cardActions
      ensures View() == Bank(map[], seedDisputes, [], [], seedCards, [], old(cardActions.lastId), pending)
    {
      filings.Reset();
      tokens.Reset();
      disputes, cards := seedDisputes, seedCards;
      cardActions.Reset();
    }
  }
}
