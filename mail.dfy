/**
 * The package's plain data types (sendgrid.go) and the recipient override
 * shared by both client generations.
 *
 * An Email is a Go struct passed by reference, and its slices share
 * their backing arrays with every shallow copy of it. The model keeps that
 * sharing: an Email is an object, its personalizations are an array, and
 * each personalization holds a reference to the array of its recipients.
 * EmailValue is the value an encoder sees when it walks such an object.
 */
module Mail {

  /** An address. The zero address is one without an email (Address.IsZero). */
  datatype Address = Address(email: string, name: string) {
    predicate IsZero() {
      email == ""
    }
  }

  const ZeroAddress := Address("", "")

  datatype Attachment = Attachment(
    content: string, mimeType: string, filename: string, disposition: string, contentId: string)

  /**
   * One element of Email.Personalizations. Copying it (as a range loop
   * does) copies the reference to the recipients' backing array.
   */
  datatype Personalization = Personalization(
    recipients: array<Address>, substitutions: map<string, string>, subject: string)

  datatype PersonalizationValue = PersonalizationValue(
    recipients: seq<Address>, substitutions: map<string, string>, subject: string)

  datatype EmailValue = EmailValue(
    templateId: string, from: Address, replyTo: Address,
    personalizations: seq<PersonalizationValue>, attachments: seq<Attachment>)

  datatype Contact = Contact(
    id: string, email: string, firstName: string, lastName: string, lists: seq<string>)

  /** storeContactsRequest, the body of the contact upsert (declared alike in both generations). */
  datatype StoreRequest = StoreRequest(lists: seq<string>, contacts: seq<Contact>)

  /** A templated email, as the struct behind an *Email. */
  class Email {
    var templateId: string
    var from: Address
    var replyTo: Address
    var personalizations: array<Personalization>
    var attachments: seq<Attachment>

    constructor (templateId: string, from: Address, replyTo: Address,
                 personalizations: array<Personalization>, attachments: seq<Attachment>)
      ensures this.templateId == templateId && this.from == from && this.replyTo == replyTo
      ensures this.personalizations == personalizations && this.attachments == attachments
    {
      this.templateId := templateId;
      this.from := from;
      this.replyTo := replyTo;
      this.personalizations := personalizations;
      this.attachments := attachments;
    }

    /** `dup := *email`: a new Email sharing this one's slices. */
    method Copy() returns (dup: Email)
      ensures fresh(dup)
      ensures dup.personalizations == personalizations && dup.View() == View()
    {
      dup := new Email(templateId, from, replyTo, personalizations, attachments);
    }

    /** The backing arrays of this email's recipient slices. */
    function RecipientArrays(): set<array<Address>>
      reads this, personalizations
    {
      Recipients(personalizations)
    }

    /** The email as an encoder sees it. */
    function View(): EmailValue
      reads this, personalizations, RecipientArrays()
    {
      EmailValue(templateId, from, replyTo, Snapshot(personalizations[..]), attachments)
    }
  }

  function Recipients(ps: array<Personalization>): set<array<Address>>
    reads ps
  {
    set p | p in ps[..] :: p.recipients
  }

  function Value(p: Personalization): (v: PersonalizationValue)
    reads p.recipients
  {
    PersonalizationValue(p.recipients[..], p.substitutions, p.subject)
  }

  /** The current contents of a sequence of personalizations. */
  function Snapshot(s: seq<Personalization>): (v: seq<PersonalizationValue>)
    reads set p | p in s :: p.recipients
    ensures |v| == |s|
    ensures forall j :: 0 <= j < |s| ==> v[j] == Value(s[j])
    decreases |s|
  {
    if s == [] then [] else [Value(s[0])] + Snapshot(s[1..])
  }

  // ---- the address override, on values ----

  /** Where a recipient's mail goes: to the override address, under its own name, when one is set. */
  function Redirect(a: Address, overrideAddress: string): Address {
    if overrideAddress == "" then a else Address(overrideAddress, a.name)
  }

  /**
   * Every recipient of every personalization redirected. With an empty
   * override nothing changes; otherwise every recipient's email becomes
   * the override and everything else stays as it was.
   */
  function RedirectAll(ps: seq<PersonalizationValue>, overrideAddress: string): (r: seq<PersonalizationValue>)
    ensures overrideAddress == "" ==> r == ps
    ensures |r| == |ps|
    ensures forall j :: 0 <= j < |ps| ==>
      r[j].substitutions == ps[j].substitutions && r[j].subject == ps[j].subject
      && |r[j].recipients| == |ps[j].recipients|
    ensures overrideAddress != "" ==> forall j, i :: 0 <= j < |ps| && 0 <= i < |ps[j].recipients| ==>
      r[j].recipients[i].email == overrideAddress && r[j].recipients[i].name == ps[j].recipients[i].name
  {
    if overrideAddress == "" then ps
    else
      seq(|ps|, j requires 0 <= j < |ps| =>
        ps[j].(recipients := seq(|ps[j].recipients|, i requires 0 <= i < |ps[j].recipients| =>
          Redirect(ps[j].recipients[i], overrideAddress))))
  }

  /**
   * The email prepareEmail produces, as a value: a zero From or ReplyTo
   * becomes the default sender, an explicit one is kept, recipients are
   * redirected, and the template and attachments are untouched.
   */
  function Prepare(e: EmailValue, defaultSender: Address, overrideAddress: string): (r: EmailValue)
    ensures e.from.IsZero() ==> r.from == defaultSender
    ensures !e.from.IsZero() ==> r.from == e.from
    ensures e.replyTo.IsZero() ==> r.replyTo == defaultSender
    ensures !e.replyTo.IsZero() ==> r.replyTo == e.replyTo
    ensures r.templateId == e.templateId && r.attachments == e.attachments
    ensures r.personalizations == RedirectAll(e.personalizations, overrideAddress)
  {
    EmailValue(
      e.templateId,
      if e.from.IsZero() then defaultSender else e.from,
      if e.replyTo.IsZero() then defaultSender else e.replyTo,
      RedirectAll(e.personalizations, overrideAddress),
      e.attachments)
  }

  /** Redirecting an already redirected list changes nothing. */
  lemma RedirectAllIdempotent(ps: seq<PersonalizationValue>, overrideAddress: string)
    ensures RedirectAll(RedirectAll(ps, overrideAddress), overrideAddress) == RedirectAll(ps, overrideAddress)
  {
    var r := RedirectAll(ps, overrideAddress);
    var rr := RedirectAll(r, overrideAddress);
    if overrideAddress != "" {
      forall j | 0 <= j < |ps| ensures rr[j] == r[j] {
        assert rr[j].recipients == r[j].recipients;
      }
    }
  }

  /** Preparing a prepared email again gives the same email. */
  lemma PrepareIdempotent(e: EmailValue, defaultSender: Address, overrideAddress: string)
    ensures var p := Prepare(e, defaultSender, overrideAddress);
      Prepare(p, defaultSender, overrideAddress) == p
  {
    RedirectAllIdempotent(e.personalizations, overrideAddress);
  }

  // ---- the address override, in place ----

  /**
   * The inner loop of the override: rewrite each recipient in the array to
   * the override address, keeping its name.
   */
  method RedirectEach(rs: array<Address>, overrideAddress: string)
    modifies rs
    ensures forall m :: 0 <= m < rs.Length ==> rs[m] == Address(overrideAddress, old(rs[m]).name)
  {
    for i := 0 to rs.Length
      invariant forall m :: 0 <= m < i ==> rs[m] == Address(overrideAddress, old(rs[m]).name)
      invariant forall m :: i <= m < rs.Length ==> rs[m] == old(rs[m])
    {
      var a := rs[i];
      rs[i] := Address(overrideAddress, a.name);
    }
  }

  /**
   * The nested loop both generations run when an override address is
   * configured: every element of every recipients array is rewritten to
   * the override address, keeping its name. The arrays are written through
   * the personalizations' shared references, so whoever else holds them
   * sees the new recipients. Two personalizations may share one array.
   */
  method OverrideRecipients(ps: array<Personalization>, overrideAddress: string)
    modifies Recipients(ps)
    ensures forall j, i :: 0 <= j < ps.Length && 0 <= i < ps[j].recipients.Length ==>
      ps[j].recipients[i] == Redirect(old(ps[j].recipients[i]), overrideAddress)
  {
    if overrideAddress != "" {
      for k := 0 to ps.Length
        invariant forall j, i :: 0 <= j < ps.Length && 0 <= i < ps[j].recipients.Length ==>
          ps[j].recipients[i] == old(ps[j].recipients[i])
          || ps[j].recipients[i] == Redirect(old(ps[j].recipients[i]), overrideAddress)
        invariant forall j, i :: 0 <= j < k && 0 <= i < ps[j].recipients.Length ==>
          ps[j].recipients[i] == Redirect(old(ps[j].recipients[i]), overrideAddress)
      {
        var p := ps[k];
        assert p.recipients in Recipients(ps);
        RedirectEach(p.recipients, overrideAddress);
      }
    }
  }

  /**
   * The override applied to an email in place: the email's recipients are
   * redirected and nothing else about it changes.
   */
  method OverrideEmail(email: Email, overrideAddress: string)
    modifies email.RecipientArrays()
    ensures email.View() == old(email.View()).(
      personalizations := RedirectAll(old(email.View()).personalizations, overrideAddress))
  {
    var ps := email.personalizations;
    ghost var before := Snapshot(ps[..]);
    OverrideRecipients(ps, overrideAddress);
    ghost var after := Snapshot(ps[..]);
    ghost var expected := RedirectAll(before, overrideAddress);
    forall j | 0 <= j < ps.Length ensures after[j] == expected[j] {
      assert after[j].recipients == expected[j].recipients;
    }
    assert after == expected;
  }
}
