/**
  The latest-mail projection: one row of mailbox_state for every mailbox that has ever
  received a message, maintained by each statement that inserts or deletes emails.

  The statements follow the SQL branch by branch (`Delivered`, `DeletedAndRefreshed`). They are
  compared with `RowFor`, which reads everything off the emails table, as the v16 rebuild does.
 */
module MailProjection {
  import opened Options
  import Text

  type Address = string    // a mailbox; full_address is unique
  type EmailId = nat       // ordered as the UUIDs are
  type Instant = int

  /** What the projection copies from its latest email. */
  datatype Summary = Summary(sender: string, subject: string, code: string, codeSource: string,
                             link: string, linkSource: string)

  datatype Email = Email(mailbox: Address, receivedAt: Instant, summary: Summary)

  datatype Row = Row(latest: Option<EmailId>, summary: Summary, receivedAt: Option<Instant>, count: int)

  datatype Mail = Mail(mailboxes: set<Address>, emails: map<EmailId, Email>, state: map<Address, Row>)

  const BLANK := Summary("", "", "", "", "", "")
  const NO_MAIL := Mail({}, map[], map[])

  // ---------- the order of emails ----------

  /** Email a sorts before email b in (received_at, id) order. */
  predicate Before(emails: map<EmailId, Email>, a: EmailId, b: EmailId)
    requires a in emails && b in emails
  {
    emails[a].receivedAt < emails[b].receivedAt || (emails[a].receivedAt == emails[b].receivedAt && a < b)
  }

  predicate Dominates(emails: map<EmailId, Email>, ids: set<EmailId>, top: EmailId)
    requires ids <= emails.Keys && top in emails
  {
    forall i :: i in ids ==> i == top || Before(emails, i, top)
  }

  lemma {:induction false} TopExists(emails: map<EmailId, Email>, ids: set<EmailId>)
    requires ids <= emails.Keys && ids != {}
    ensures exists top :: top in ids && Dominates(emails, ids, top)
  {
    var x :| x in ids;
    var others := ids - {x};
    assert ids == others + {x};
    if others == {} {
      assert Dominates(emails, ids, x);
    } else {
      TopExists(emails, others);
      var top :| top in others && Dominates(emails, others, top);
      assert Dominates(emails, ids, if Before(emails, top, x) then x else top);
    }
  }

  /** The first of the emails when ordered by received_at DESC, id DESC. */
  function Top(emails: map<EmailId, Email>, ids: set<EmailId>): (top: EmailId)
    requires ids <= emails.Keys && ids != {}
    ensures top in ids && Dominates(emails, ids, top)
  {
    TopExists(emails, ids);
    var top :| top in ids && Dominates(emails, ids, top);
    top
  }

  /** What is left after skipping the first n in that order. */
  function Offset(emails: map<EmailId, Email>, ids: set<EmailId>, n: nat): (rest: set<EmailId>)
    requires ids <= emails.Keys
    ensures rest <= ids
  {
    if n == 0 || ids == {} then ids else Offset(emails, ids - {Top(emails, ids)}, n - 1)
  }

  // ---------- the projection, read off the emails table ----------

  function Of(emails: map<EmailId, Email>, m: Address): (ids: set<EmailId>)
    ensures ids <= emails.Keys
  {
    set id | id in emails && emails[id].mailbox == m
  }

  /** A row whose latest email is the newest of the mailbox. */
  function LatestRow(emails: map<EmailId, Email>, m: Address, count: int): Row {
    if Of(emails, m) == {} then Row(None, BLANK, None, count)
    else
      var top := Top(emails, Of(emails, m));
      Row(Some(top), emails[top].summary, Some(emails[top].receivedAt), count)
  }

  function RowFor(emails: map<EmailId, Email>, m: Address): Row {
    LatestRow(emails, m, |Of(emails, m)|)
  }

  /** Foreign keys hold, every projected row is right, and every email is projected. */
  predicate Exact(mail: Mail) {
    && mail.state.Keys <= mail.mailboxes
    && (forall id :: id in mail.emails ==> mail.emails[id].mailbox in mail.state)
    && (forall m :: m in mail.state ==> mail.state[m] == RowFor(mail.emails, m))
  }

  // ---------- the statements ----------

  /** The projection prefers the incoming email; SQL comparisons with NULL are not true. */
  predicate Supersedes(id: EmailId, receivedAt: Instant, row: Row) {
    || row.receivedAt.None?
    || receivedAt > row.receivedAt.value
    || (receivedAt == row.receivedAt.value && row.latest.Some? && id > row.latest.value)
  }

  function Upserted(state: map<Address, Row>, id: EmailId, email: Email): Row {
    var m := email.mailbox;
    if m !in state then Row(Some(id), email.summary, Some(email.receivedAt), 1)
    else if Supersedes(id, email.receivedAt, state[m])
    then Row(Some(id), email.summary, Some(email.receivedAt), state[m].count + 1)
    else state[m].(count := state[m].count + 1)
  }

  /** A delivery creates the mailbox if need be, stores the email and upserts the projection. */
  function Delivered(mail: Mail, id: EmailId, email: Email): Mail {
    Mail(mail.mailboxes + {email.mailbox}, mail.emails[id := email],
         mail.state[email.mailbox := Upserted(mail.state, id, email)])
  }

  function GreatestOfZero(x: int): int {
    if x > 0 then x else 0
  }

  /** The new row of a mailbox that lost some of its emails; `left` are the emails that stay. */
  function Refreshed(row: Row, gone: set<EmailId>, lost: int, left: map<EmailId, Email>, m: Address): Row {
    var count := GreatestOfZero(row.count - lost);
    if row.latest.None? || row.latest.value in gone then LatestRow(left, m, count) else row.(count := count)
  }

  function Lost(mail: Mail, gone: set<EmailId>, m: Address): set<EmailId> {
    Of(mail.emails, m) * gone
  }

  /** One statement deletes the emails and refreshes the rows of the mailboxes they were in. */
  function DeletedAndRefreshed(mail: Mail, gone: set<EmailId>): Mail {
    var left := mail.emails - gone;
    Mail(mail.mailboxes, left,
         map m | m in mail.state ::
           if Lost(mail, gone, m) == {} then mail.state[m]
           else Refreshed(mail.state[m], gone, |Lost(mail, gone, m)|, left, m))
  }

  /** Deleting a mailbox cascades to its emails and to its projected row. */
  function WithoutMailboxes(mail: Mail, doomed: set<Address>): Mail {
    Mail(mail.mailboxes - doomed,
         map id | id in mail.emails && mail.emails[id].mailbox !in doomed :: mail.emails[id],
         mail.state - doomed)
  }

  /** What the deletion statements select. */
  datatype Selection =
    | One(id: EmailId, mailbox: Address, owned: bool)          // owned: the caller's account and token match
    | OlderThan(maxAge: int, now: Instant)
    | BeyondNewest(maxCount: int)
    | InMailboxes(mailboxes: set<Address>, cutoff: Option<Instant>)

  function Selected(mail: Mail, which: Selection): (gone: set<EmailId>)
    ensures gone <= mail.emails.Keys
  {
    match which
    case One(id, m, owned) => if owned && id in mail.emails && mail.emails[id].mailbox == m then {id} else {}
    case OlderThan(maxAge, now) =>
      if maxAge <= 0 then {} else set id | id in mail.emails && mail.emails[id].receivedAt < now - maxAge
    case BeyondNewest(n) =>
      if n <= 0 then {} else Offset(mail.emails, mail.emails.Keys, n)
    case InMailboxes(ms, cutoff) =>
      set id | id in mail.emails && mail.emails[id].mailbox in ms
               && (cutoff.None? || mail.emails[id].receivedAt < cutoff.value)
  }

  datatype Op =
    | CreateMailbox(mailbox: Address)
    | Deliver(id: EmailId, email: Email)
    | Delete(which: Selection)
    | DeleteMailboxes(doomed: set<Address>)
    | Rebuild

  /** ROW_NUMBER() over the emails of its mailbox, by received_at DESC, id DESC. */
  function RowNumber(emails: map<EmailId, Email>, id: EmailId): nat
    requires id in emails
  {
    1 + |set other | other in Of(emails, emails[id].mailbox) && Before(emails, id, other)|
  }

  function RankedFirst(emails: map<EmailId, Email>, m: Address): set<EmailId> {
    set id | id in Of(emails, m) && RowNumber(emails, id) == 1
  }

  lemma RankedFirstIsTop(emails: map<EmailId, Email>, m: Address)
    ensures RankedFirst(emails, m) == if Of(emails, m) == {} then {} else {Top(emails, Of(emails, m))}
  {
    var ids := Of(emails, m);
    if ids != {} {
      var top := Top(emails, ids);
      forall id | id in ids
        ensures RowNumber(emails, id) == 1 <==> id == top
      {
        var ahead := set other | other in ids && Before(emails, id, other);
        if id == top { assert ahead == {}; } else { assert top in ahead; }
      }
    }
  }

  /** A mailbox joined with its first ranked email, if any, and the count of its partition. */
  function RankedRow(emails: map<EmailId, Email>, m: Address): Row {
    RankedFirstIsTop(emails, m);
    var first := RankedFirst(emails, m);
    if first == {} then Row(None, BLANK, None, 0)
    else
      var id :| id in first;
      Row(Some(id), emails[id].summary, Some(emails[id].receivedAt), |Of(emails, emails[id].mailbox)|)
  }

  /** The ranking picks the email that the projection keeps. */
  lemma RankedRowIsRowFor(emails: map<EmailId, Email>, m: Address)
    ensures RankedRow(emails, m) == RowFor(emails, m)
  {
    RankedFirstIsTop(emails, m);
  }

  /** The v16 migration: every mailbox gets the row that the ranking gives. */
  function Rebuilt(mail: Mail): Mail {
    mail.(state := map m | m in mail.mailboxes + mail.state.Keys ::
                     if m in mail.mailboxes then RankedRow(mail.emails, m) else mail.state[m])
  }

  lemma RebuiltRows(mail: Mail)
    ensures forall m :: m in mail.mailboxes ==> Rebuilt(mail).state[m] == RowFor(mail.emails, m)
  {
    forall m | m in mail.mailboxes
      ensures Rebuilt(mail).state[m] == RowFor(mail.emails, m)
    {
      RankedRowIsRowFor(mail.emails, m);
    }
  }

  /** A statement that violates a key fails and changes nothing. */
  function Do(mail: Mail, op: Op): Mail {
    match op
    case CreateMailbox(m) => mail.(mailboxes := mail.mailboxes + {m})
    case Deliver(id, email) => if id in mail.emails then mail else Delivered(mail, id, email)
    case Delete(which) => DeletedAndRefreshed(mail, Selected(mail, which))
    case DeleteMailboxes(doomed) => WithoutMailboxes(mail, doomed)
    case Rebuild => Rebuilt(mail)
  }

  function Replay(ops: seq<Op>): Mail {
    if ops == [] then NO_MAIL else Do(Replay(ops[..|ops| - 1]), ops[|ops| - 1])
  }

  // ---------- every statement keeps the projection exact ----------

  /** Being the newest characterises the row: there is only one such email. */
  lemma RowIs(emails: map<EmailId, Email>, m: Address, top: EmailId)
    requires top in Of(emails, m) && Dominates(emails, Of(emails, m), top)
    ensures RowFor(emails, m) == Row(Some(top), emails[top].summary, Some(emails[top].receivedAt), |Of(emails, m)|)
  {
    assert Top(emails, Of(emails, m)) == top;
  }

  /** A newest email that is not deleted stays the newest. */
  lemma StaysNewest(emails: map<EmailId, Email>, gone: set<EmailId>, m: Address)
    requires Of(emails, m) != {} && Top(emails, Of(emails, m)) !in gone
    ensures var left, top := emails - gone, Top(emails, Of(emails, m));
            RowFor(left, m) == Row(Some(top), emails[top].summary, Some(emails[top].receivedAt), |Of(left, m)|)
  {
    var left, top := emails - gone, Top(emails, Of(emails, m));
    assert Of(left, m) <= Of(emails, m);
    assert Dominates(left, Of(left, m), top);
    RowIs(left, m, top);
  }

  /** Two tables with the same emails in a mailbox project the same row. */
  lemma SameRow(emails: map<EmailId, Email>, others: map<EmailId, Email>, m: Address)
    requires Of(emails, m) == Of(others, m)
    requires forall id :: id in Of(emails, m) ==> emails[id] == others[id]
    ensures RowFor(emails, m) == RowFor(others, m)
  {
    if Of(emails, m) != {} {
      var top := Top(emails, Of(emails, m));
      assert Dominates(others, Of(others, m), top);
      RowIs(others, m, top);
    }
  }

  lemma DeliverKeepsExact(mail: Mail, id: EmailId, email: Email)
    requires Exact(mail) && id !in mail.emails
    ensures Exact(Delivered(mail, id, email))
  {
    var after := Delivered(mail, id, email);
    forall m | m in after.state
      ensures after.state[m] == RowFor(after.emails, m)
    {
      if m != email.mailbox {
        assert Of(after.emails, m) == Of(mail.emails, m);
        SameRow(mail.emails, after.emails, m);
      } else {
        DeliveredRow(mail, id, email);
      }
    }
  }

  lemma DeliveredRow(mail: Mail, id: EmailId, email: Email)
    requires Exact(mail) && id !in mail.emails
    ensures Upserted(mail.state, id, email) == RowFor(mail.emails[id := email], email.mailbox)
  {
    var m, after := email.mailbox, mail.emails[id := email];
    assert Of(after, m) == Of(mail.emails, m) + {id};
    if Of(mail.emails, m) == {} {
      assert Dominates(after, Of(after, m), id);
      RowIs(after, m, id);
    } else {
      var top := Top(mail.emails, Of(mail.emails, m));
      assert mail.emails[top].mailbox in mail.state;
      assert Dominates(after, Of(after, m), if Before(after, top, id) then id else top);
      RowIs(after, m, if Before(after, top, id) then id else top);
    }
  }

  /** The count that a deletion subtracts from is at least what it subtracts. */
  lemma CountNeverClamps(mail: Mail, gone: set<EmailId>, m: Address)
    requires Exact(mail) && m in mail.state
    ensures |Lost(mail, gone, m)| <= mail.state[m].count
    ensures mail.state[m].count - |Lost(mail, gone, m)| == |Of(mail.emails - gone, m)|
  {
    var all, lost := Of(mail.emails, m), Lost(mail, gone, m);
    assert Of(mail.emails - gone, m) == all - lost;
    assert all == lost + (all - lost);
  }

  lemma DeleteKeepsExact(mail: Mail, gone: set<EmailId>)
    requires Exact(mail)
    ensures Exact(DeletedAndRefreshed(mail, gone))
  {
    var after := DeletedAndRefreshed(mail, gone);
    forall m | m in after.state
      ensures after.state[m] == RowFor(after.emails, m)
    {
      CountNeverClamps(mail, gone, m);
      if Lost(mail, gone, m) == {} {
        assert forall id :: id in Of(mail.emails, m) ==> id !in gone by {
          assert forall id :: id in Of(mail.emails, m) && id in gone ==> id in Lost(mail, gone, m);
        }
        assert Of(after.emails, m) == Of(mail.emails, m);
        SameRow(mail.emails, after.emails, m);
      } else {
        RefreshedRow(mail, gone, m);
      }
    }
  }

  lemma RefreshedRow(mail: Mail, gone: set<EmailId>, m: Address)
    requires Exact(mail) && m in mail.state
    ensures Refreshed(mail.state[m], gone, |Lost(mail, gone, m)|, mail.emails - gone, m) == RowFor(mail.emails - gone, m)
  {
    CountNeverClamps(mail, gone, m);
    var left := mail.emails - gone;
    if Of(mail.emails, m) != {} {
      var top := Top(mail.emails, Of(mail.emails, m));
      if top !in gone {
        StaysNewest(mail.emails, gone, m);
      }
    }
  }

  lemma CascadeKeepsExact(mail: Mail, doomed: set<Address>)
    requires Exact(mail)
    ensures Exact(WithoutMailboxes(mail, doomed))
  {
    var after := WithoutMailboxes(mail, doomed);
    forall m | m in after.state
      ensures after.state[m] == RowFor(after.emails, m)
    {
      assert Of(after.emails, m) == Of(mail.emails, m);
      SameRow(mail.emails, after.emails, m);
    }
  }

  lemma DoKeepsExact(mail: Mail, op: Op)
    requires Exact(mail)
    ensures Exact(Do(mail, op))
  {
    match op
    case Deliver(id, email) => if id !in mail.emails { DeliverKeepsExact(mail, id, email); }
    case Delete(which) => DeleteKeepsExact(mail, Selected(mail, which));
    case DeleteMailboxes(doomed) => CascadeKeepsExact(mail, doomed);
    case Rebuild => RebuiltRows(mail);
    case CreateMailbox(_) =>
  }

  /** After every history of statements, in any order, the projection is exact. */
  lemma {:induction false} ProjectionExactInEveryRun(ops: seq<Op>)
    ensures Exact(Replay(ops))
  {
    if ops != [] {
      ProjectionExactInEveryRun(ops[..|ops| - 1]);
      DoKeepsExact(Replay(ops[..|ops| - 1]), ops[|ops| - 1]);
    }
  }

  /**
    Running the rebuild after any history changes no existing row; the rows it adds are empty,
    for mailboxes that hold no email.
   */
  lemma RebuildAgreesWithEveryRun(ops: seq<Op>)
    ensures var mail := Replay(ops);
            && mail.state.Keys <= Rebuilt(mail).state.Keys == mail.mailboxes
            && (forall m :: m in mail.state ==> Rebuilt(mail).state[m] == mail.state[m])
            && (forall m :: m in mail.mailboxes && m !in mail.state ==>
                  Rebuilt(mail).state[m] == Row(None, BLANK, None, 0))
  {
    ProjectionExactInEveryRun(ops);
    var mail := Replay(ops);
    RebuiltRows(mail);
    forall m | m in mail.mailboxes && m !in mail.state
      ensures Of(mail.emails, m) == {}
    {
      assert forall id :: id in mail.emails ==> mail.emails[id].mailbox in mail.state;
    }
  }

  /** The rebuild repairs any projection, whatever its rows were. */
  lemma RebuildRepairs(mail: Mail)
    requires mail.state.Keys <= mail.mailboxes
    requires forall id :: id in mail.emails ==> mail.emails[id].mailbox in mail.mailboxes
    ensures Exact(Rebuilt(mail)) && Rebuilt(Rebuilt(mail)) == Rebuilt(mail)
  {
    RebuiltRows(mail);
    RebuiltRows(Rebuilt(mail));
    assert Rebuilt(Rebuilt(mail)).state == Rebuilt(mail).state;
  }

  // ---------- trimming and ageing ----------

  /** No deleted email is newer than one that stays. */
  predicate DownSet(emails: map<EmailId, Email>, gone: set<EmailId>) {
    forall a, b :: a in emails && b in emails && a in gone && b !in gone ==> Before(emails, a, b)
  }

  /** Trimming keeps exactly the maxCount newest emails, or all of them if there are no more. */
  lemma TrimKeepsTheNewest(mail: Mail, maxCount: int)
    requires maxCount > 0
    ensures var gone := Selected(mail, BeyondNewest(maxCount));
            && DownSet(mail.emails, gone)
            && |mail.emails.Keys - gone| == if |mail.emails| <= maxCount then |mail.emails| else maxCount
  {
    OffsetKeepsTheNewest(mail.emails, mail.emails.Keys, maxCount);
  }

  lemma OffsetKeepsTheNewest(emails: map<EmailId, Email>, ids: set<EmailId>, n: nat)
    requires ids <= emails.Keys
    ensures var rest := Offset(emails, ids, n);
            && (forall a, b :: a in rest && b in ids && b !in rest ==> Before(emails, a, b))
            && |ids - rest| == if |ids| <= n then |ids| else n
  {
    OffsetIsOlder(emails, ids, n);
    OffsetLeaves(emails, ids, n);
  }

  lemma {:induction false} OffsetIsOlder(emails: map<EmailId, Email>, ids: set<EmailId>, n: nat)
    requires ids <= emails.Keys
    ensures var rest := Offset(emails, ids, n); forall a, b :: a in rest && b in ids && b !in rest ==> Before(emails, a, b)
  {
    if n > 0 && ids != {} { OffsetIsOlder(emails, ids - {Top(emails, ids)}, n - 1); }
  }

  lemma {:induction false} OffsetLeaves(emails: map<EmailId, Email>, ids: set<EmailId>, n: nat)
    requires ids <= emails.Keys
    ensures |ids - Offset(emails, ids, n)| == if |ids| <= n then |ids| else n
  {
    var rest := Offset(emails, ids, n);
    if n == 0 || ids == {} {
      assert ids - rest == {};
    } else {
      var top := Top(emails, ids);
      OffsetLeaves(emails, ids - {top}, n - 1);
      assert ids - rest == (ids - {top} - rest) + {top};
    }
  }

  lemma DeletingNothing(mail: Mail)
    ensures DeletedAndRefreshed(mail, {}) == mail
  {
    assert mail.emails - {} == mail.emails;
  }

  lemma TrimLeaves(mail: Mail, maxCount: int, gone: set<EmailId>)
    requires maxCount > 0 && gone == Selected(mail, BeyondNewest(maxCount))
    ensures var left := mail.emails - gone;
            && |left| == (if maxCount < |mail.emails| then maxCount else |mail.emails|)
            && |gone| == |mail.emails| - |left| && DownSet(mail.emails, mail.emails.Keys - left.Keys)
  {
    TrimKeepsTheNewest(mail, maxCount);
    Remaining(mail.emails, gone);
  }

  lemma Remaining(emails: map<EmailId, Email>, gone: set<EmailId>)
    requires gone <= emails.Keys
    ensures |emails - gone| == |emails.Keys - gone| == |emails| - |gone|
    ensures emails.Keys - (emails - gone).Keys == gone
  {
    assert (emails - gone).Keys == emails.Keys - gone;
    assert emails.Keys == (emails.Keys - gone) + gone;
  }

  lemma AgeDeletesADownSet(mail: Mail, maxAge: int, now: Instant)
    ensures DownSet(mail.emails, Selected(mail, OlderThan(maxAge, now)))
  {
  }

  lemma DownSetPromotesNothing(mail: Mail, gone: set<EmailId>, m: Address)
    requires Exact(mail) && DownSet(mail.emails, gone) && m in mail.state
    ensures var row := RowFor(mail.emails - gone, m);
            row == mail.state[m].(count := row.count) || row == Row(None, BLANK, None, 0)
  {
    var left := mail.emails - gone;
    if Of(left, m) != {} {
      var survivor :| survivor in Of(left, m);
      var all := Of(mail.emails, m);
      assert survivor in all && survivor !in gone;
      assert Top(mail.emails, all) !in gone;
      StaysNewest(mail.emails, gone, m);
    }
  }

  /**
    Trim and age cleanup promote no email: after any history, each projected mailbox keeps its
    latest email and all that was copied from it, or is left without emails.
   */
  lemma CleanupPromotesNothing(ops: seq<Op>, which: Selection, m: Address)
    requires which.OlderThan? || which.BeyondNewest?
    requires m in Replay(ops).state
    ensures var before, after := Replay(ops).state[m], Replay(ops + [Delete(which)]).state;
            && m in after
            && (after[m] == before.(count := after[m].count) || after[m] == Row(None, BLANK, None, 0))
  {
    var mail, gone := Replay(ops), Selected(Replay(ops), which);
    ProjectionExactInEveryRun(ops);
    assert (ops + [Delete(which)])[..|ops|] == ops;
    DeleteKeepsExact(mail, gone);
    if which.BeyondNewest? && which.maxCount > 0 { TrimKeepsTheNewest(mail, which.maxCount); }
    DownSetPromotesNothing(mail, gone, m);
  }

  // ---------- the store ----------

  lemma DeliveredCounts(mail: Mail, id: EmailId, email: Email)
    requires Exact(mail) && id !in mail.emails
    ensures var after := Delivered(mail, id, email);
            && Exact(after) && after.state[email.mailbox].count == |Of(mail.emails, email.mailbox)| + 1
            && SameElsewhere(mail.state, after.state, email.mailbox)
  {
    DeliverKeepsExact(mail, id, email);
    DeliveredRow(mail, id, email);
    OneEmailMore(mail.emails, id, email);
  }

  lemma OneEmailMore(emails: map<EmailId, Email>, id: EmailId, email: Email)
    requires id !in emails
    ensures RowFor(emails[id := email], email.mailbox).count == |Of(emails, email.mailbox)| + 1
  {
    assert Of(emails[id := email], email.mailbox) == Of(emails, email.mailbox) + {id};
  }

  /** A delivery as the ingress hands it over. */
  datatype Delivery = Delivery(recipient: string, localPart: string, domainName: string, account: Option<nat>, domain: int,
                               receivedAt: Instant, summary: Summary)

  function Cleaned(name: string): string {
    Text.Lower(Text.TrimSpace(name))
  }

  predicate Deliverable(d: Delivery) {
    && Cleaned(d.recipient) != "" && Cleaned(d.localPart) != ""
    && Text.Lower(Text.Trim(Text.TrimSpace(d.domainName), {'.'})) != ""
    && d.account.Some? && d.domain > 0
  }

  function EmailOf(d: Delivery): Email {
    Email(Cleaned(d.recipient), d.receivedAt, d.summary)
  }

  // ---------- what the methods promise, spelled out ----------

  /** Email `other` of the mailbox sorts after email `id`: it came later, or at the same time with a greater id. */
  predicate SortsAfter(emails: map<EmailId, Email>, m: Address, other: EmailId, id: EmailId, receivedAt: Instant) {
    && other in emails && emails[other].mailbox == m
    && (emails[other].receivedAt > receivedAt || (emails[other].receivedAt == receivedAt && other > id))
  }

  /** The row counts the mailbox's emails and shows the one after which none sorts; or it is blank, and there are none. */
  ghost predicate ShowsTheNewest(emails: map<EmailId, Email>, m: Address, row: Row) {
    && row.count == |set id | id in emails && emails[id].mailbox == m|
    && match row.latest
       case None => row.receivedAt == None && row.summary == Summary("", "", "", "", "", "") && forall id :: id in emails ==> emails[id].mailbox != m
       case Some(id) =>
         && id in emails && emails[id].mailbox == m && row.receivedAt == Some(emails[id].receivedAt)
         && row.summary == emails[id].summary && forall other :: !SortsAfter(emails, m, other, id, emails[id].receivedAt)
  }

  ghost predicate AllShowTheNewest(mail: Mail) {
    && (forall id :: id in mail.emails ==> mail.emails[id].mailbox in mail.state)
    && forall m :: m in mail.state ==> m in mail.mailboxes && ShowsTheNewest(mail.emails, m, mail.state[m])
  }

  lemma RowForShows(emails: map<EmailId, Email>, m: Address)
    ensures ShowsTheNewest(emails, m, RowFor(emails, m))
  {
    assert Of(emails, m) == set id | id in emails && emails[id].mailbox == m;
    assert forall id :: id in emails && emails[id].mailbox == m ==> id in Of(emails, m);
  }

  lemma ExactShows(mail: Mail)
    requires Exact(mail)
    ensures AllShowTheNewest(mail)
  {
    forall m | m in mail.state
      ensures ShowsTheNewest(mail.emails, m, mail.state[m])
    {
      RowForShows(mail.emails, m);
    }
  }

  /** After every history each projected mailbox shows its newest email and counts all of them, and every email's mailbox is projected. */
  lemma EveryRunShowsTheNewest(ops: seq<Op>)
    ensures AllShowTheNewest(Replay(ops))
  {
    ProjectionExactInEveryRun(ops);
    ExactShows(Replay(ops));
  }

  /** The new row shows the delivered email unless an older one of the mailbox sorts after it; then it shows what it showed. */
  ghost predicate ShowsDelivered(before: Mail, row: Row, id: EmailId, email: Email) {
    if exists other :: SortsAfter(before.emails, email.mailbox, other, id, email.receivedAt)
    then email.mailbox in before.state && row == before.state[email.mailbox].(count := row.count)
    else row.latest == Some(id) && row.summary == email.summary && row.receivedAt == Some(email.receivedAt)
  }

  lemma DeliveredIsShown(mail: Mail, id: EmailId, email: Email)
    requires Exact(mail) && id !in mail.emails
    ensures ShowsDelivered(mail, Upserted(mail.state, id, email), id, email)
  {
    var m := email.mailbox;
    if m in mail.state {
      RowForShows(mail.emails, m);
      if mail.state[m].latest.Some? {
        var latest := mail.state[m].latest.value;
        assert SortsAfter(mail.emails, m, latest, id, email.receivedAt) <==> !Supersedes(id, email.receivedAt, mail.state[m]);
        if other :| SortsAfter(mail.emails, m, other, id, email.receivedAt) {
          assert !SortsAfter(mail.emails, m, other, latest, mail.emails[latest].receivedAt);
        }
      }
    } else {
      assert forall other :: other in mail.emails ==> mail.emails[other].mailbox != m;
    }
  }

  /** In lower case and without white space around it. */
  ghost predicate CleansTo(name: string, cleaned: string) {
    exists t :: Text.TrimsTo(name, Text.SPACE, t) && Text.IsLowerOf(t, cleaned)
  }

  predicate Visible(name: string) {
    exists i :: 0 <= i < |name| && name[i] !in Text.SPACE
  }

  /** Between white space there is something else than dots. */
  ghost predicate NamesADomain(name: string) {
    exists t :: Text.TrimsTo(name, Text.SPACE, t) && exists i :: 0 <= i < |t| && t[i] != '.'
  }

  lemma CleanedIsClean(name: string)
    ensures CleansTo(name, Cleaned(name)) && (Cleaned(name) != "" <==> Visible(name))
  {
    Text.TrimTrims(name, Text.SPACE);
    Text.LowerIsRight(Text.TrimSpace(name));
    Text.LowerMeans(Text.TrimSpace(name));
    TrimVisible(name, Text.SPACE);
    assert Text.TrimsTo(name, Text.SPACE, Text.TrimSpace(name)) && Text.IsLowerOf(Text.TrimSpace(name), Cleaned(name));
  }

  lemma TrimVisible(name: string, cut: set<char>)
    ensures Text.Trim(name, cut) != "" <==> exists i :: 0 <= i < |name| && name[i] !in cut
  {
    Text.TrimTrims(name, cut);
    var r := Text.Trim(name, cut);
    var before, after :| Text.IsTrimOf(name, cut, before, r, after);
    if r == "" {
      assert name == before + after;
    } else {
      assert name[|before|] == r[0];
    }
  }

  lemma DomainIsNamed(name: string)
    ensures Text.Lower(Text.Trim(Text.TrimSpace(name), {'.'})) != "" <==> NamesADomain(name)
  {
    var t := Text.TrimSpace(name);
    Text.TrimIsRight(name, Text.SPACE);
    Text.LowerMeans(Text.Trim(t, {'.'}));
    TrimVisible(t, {'.'});
    assert forall i :: 0 <= i < |t| ==> (t[i] !in {'.'} <==> t[i] != '.');
  }

  lemma DeliverableIsComplete(d: Delivery)
    ensures Deliverable(d) <==>
              Visible(d.recipient) && Visible(d.localPart) && NamesADomain(d.domainName) && d.account != None && d.domain > 0
  {
    CleanedIsClean(d.recipient);
    CleanedIsClean(d.localPart);
    DomainIsNamed(d.domainName);
  }

  /** The delivery's email is stored under the recipient's cleaned name, its row shows it or what it showed, and nothing else changes. */
  ghost predicate StoresDelivery(before: Mail, after: Mail, id: EmailId, d: Delivery) {
    exists m :: CleansTo(d.recipient, m) && StoresIn(before, after, id, m, d)
  }

  ghost predicate StoresIn(before: Mail, after: Mail, id: EmailId, m: Address, d: Delivery) {
    var e := Email(m, d.receivedAt, d.summary);
    && after.mailboxes == before.mailboxes + {m} && after.emails == before.emails[id := e]
    && after.state.Keys == before.state.Keys + {m} && SameElsewhere(before.state, after.state, m)
    && ShowsDelivered(before, after.state[m], id, e)
    && after.state[m].count == 1 + |set other | other in before.emails && before.emails[other].mailbox == m|
  }

  lemma DeliveryIsStored(mail: Mail, id: EmailId, d: Delivery)
    requires Exact(mail) && id !in mail.emails
    ensures StoresDelivery(mail, Delivered(mail, id, EmailOf(d)), id, d)
  {
    var m := Cleaned(d.recipient);
    CleanedIsClean(d.recipient);
    DeliveredIsShown(mail, id, EmailOf(d));
    DeliveredCounts(mail, id, EmailOf(d));
    assert Of(mail.emails, m) == set other | other in mail.emails && mail.emails[other].mailbox == m;
    assert StoresIn(mail, Delivered(mail, id, EmailOf(d)), id, m, d);
  }

  /** A delivery is stored exactly when it is complete; and every row shows the newest email afterwards. */
  ghost predicate DeliversRight(before: Mail, after: Mail, id: EmailId, d: Delivery, stored: bool) {
    && (stored <==> Visible(d.recipient) && Visible(d.localPart) && NamesADomain(d.domainName) && d.account != None && d.domain > 0)
    && (if stored then StoresDelivery(before, after, id, d) else after == before)
    && AllShowTheNewest(after)
  }

  lemma DeliveryIsRight(mail: Mail, id: EmailId, d: Delivery)
    requires Exact(mail) && id !in mail.emails
    ensures DeliversRight(mail, if Deliverable(d) then Delivered(mail, id, EmailOf(d)) else mail, id, d, Deliverable(d))
    ensures var m, after := Cleaned(d.recipient), Delivered(mail, id, EmailOf(d));
            && Exact(after) && after.state[m].count == |Of(mail.emails, m)| + 1 && SameElsewhere(mail.state, after.state, m)
  {
    DeliverableIsComplete(d);
    DeliveryIsStored(mail, id, d);
    DeliveredCounts(mail, id, EmailOf(d));
    ExactShows(mail);
    ExactShows(Delivered(mail, id, EmailOf(d)));
  }

  predicate SameElsewhere(before: map<Address, Row>, after: map<Address, Row>, m: Address) {
    forall other :: other in before.Keys + after.Keys && other != m ==>
      other in before && other in after && after[other] == before[other]
  }

  /** The tables as the store's methods change them, one statement at a time. */
  class MailStore {
    var mailboxes: set<Address>
    var emails: map<EmailId, Email>
    var state: map<Address, Row>

    ghost function Tables(): Mail
      reads this
    {
      Mail(mailboxes, emails, state)
    }

    ghost predicate Valid()
      reads this
    {
      Exact(Tables())
    }

    constructor ()
      ensures Valid() && Tables() == NO_MAIL
    {
      mailboxes, emails, state := {}, map[], map[];
    }

    /**
      Names are trimmed and lower-cased first. A delivery without a recipient, an account or a domain
      is refused before any statement is sent.
     */
    method InsertEmailResolved(id: EmailId, delivery: Delivery) returns (stored: bool)
      requires Valid() && id !in emails
      modifies this
      ensures Valid() && DeliversRight(old(Tables()), Tables(), id, delivery, stored)
    {
      DeliveryIsRight(Tables(), id, delivery);
      stored := InsertIfComplete(id, delivery);
    }

    method InsertIfComplete(id: EmailId, delivery: Delivery) returns (stored: bool)
      requires id !in emails
      modifies this
      ensures stored == Deliverable(delivery)
      ensures Tables() == if stored then Delivered(old(Tables()), id, EmailOf(delivery)) else old(Tables())
    {
      var recipient, localPart := Text.Lower(Text.TrimSpace(delivery.recipient)), Text.Lower(Text.TrimSpace(delivery.localPart));
      var domainName := Text.Lower(Text.Trim(Text.TrimSpace(delivery.domainName), {'.'}));
      if recipient == "" || localPart == "" || domainName == "" || delivery.account.None? || delivery.domain <= 0 { return false; }
      Upsert(id, EmailOf(delivery));
      stored := true;
    }

    method Upsert(id: EmailId, email: Email)
      modifies this
      ensures Tables() == Delivered(old(Tables()), id, email)
    {
      var m := email.mailbox;
      mailboxes := mailboxes + {m};
      emails := emails[id := email];
      if m !in state {
        state := state[m := Row(Some(id), email.summary, Some(email.receivedAt), 1)];
      } else {
        var row := state[m];
        if Supersedes(id, email.receivedAt, row) {
          row := row.(latest := Some(id), summary := email.summary, receivedAt := Some(email.receivedAt));
        }
        state := state[m := row.(count := row.count + 1)];
      }
    }

    method DeleteEmailsAndRefreshProjection(gone: set<EmailId>) returns (deleted: nat)
      requires Valid() && gone <= emails.Keys
      modifies this
      ensures Valid() && deleted == |gone| && emails == old(emails) - gone
      ensures Tables() == DeletedAndRefreshed(old(Tables()), gone)
      ensures state.Keys == old(state.Keys) && forall m :: m in state ==> state[m] == RowFor(emails, m)
      ensures mailboxes == old(mailboxes) && AllShowTheNewest(Tables())
    {
      DeleteKeepsExact(Tables(), gone);
      deleted := |gone|;
      var after := DeletedAndRefreshed(Mail(mailboxes, emails, state), gone);
      emails := emails - gone;
      state := after.state;
      ExactShows(Tables());
    }

    /** Returns the number of emails deleted; a limit that is not positive deletes none. */
    method TrimEmailsToMaxCount(maxCount: int) returns (deleted: nat)
      requires Valid()
      modifies this
      ensures Valid() && Tables() == Do(old(Tables()), Delete(BeyondNewest(maxCount)))
      ensures |emails| == if 0 < maxCount < |old(emails)| then maxCount else |old(emails)|
      ensures deleted == |old(emails)| - |emails| && DownSet(old(emails), old(emails.Keys) - emails.Keys)
    {
      ghost var before := Tables();
      deleted := 0;
      if maxCount > 0 {
        var gone := Offset(emails, emails.Keys, maxCount);
        TrimLeaves(before, maxCount, gone);
        deleted := DeleteEmailsAndRefreshProjection(gone);
      } else {
        DeletingNothing(before);
      }
    }

    method DeleteEmailsOlderThan(maxAge: int, now: Instant) returns (deleted: nat)
      requires Valid()
      modifies this
      ensures Valid() && Tables() == Do(old(Tables()), Delete(OlderThan(maxAge, now)))
      ensures forall id :: id in emails <==> id in old(emails) && (maxAge <= 0 || old(emails)[id].receivedAt >= now - maxAge)
    {
      ghost var before := Tables();
      deleted := 0;
      if maxAge > 0 {
        var gone := Selected(Mail(mailboxes, emails, state), OlderThan(maxAge, now));
        deleted := DeleteEmailsAndRefreshProjection(gone);
      } else {
        DeletingNothing(before);
      }
    }

    /** False when the row is missing or not the caller's. */
    method DeleteEmail(id: EmailId, m: Address, owned: bool) returns (found: bool)
      requires Valid()
      modifies this
      ensures Valid() && Tables() == Do(old(Tables()), Delete(One(id, m, owned)))
      ensures found == (owned && id in old(emails) && old(emails)[id].mailbox == m)
      ensures emails == if found then old(emails) - {id} else old(emails)
    {
      var gone := Selected(Mail(mailboxes, emails, state), One(id, m, owned));
      assert gone == {} ==> emails - gone == emails;
      var deleted := DeleteEmailsAndRefreshProjection(gone);
      found := deleted != 0;
    }
  }
}
