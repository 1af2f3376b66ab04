/**
 * The second client generation (client.go): a client built by folding
 * functional options over a default configuration, a Send that decorates
 * and classifies, and prepareEmail, which fills in the default sender on a
 * shallow copy of the caller's email and redirects its recipients through
 * the slices that copy shares with the caller.
 */
module Live {
  import opened Optional
  import opened Mail
  import opened Dispatch
  import Options

  const DefaultEndpoint := "https://api.sendgrid.com/v3"

  datatype Client = Client(
    base: string, apikey: string, overrideAddress: string, defaultSender: Address, verbose: bool)

  /**
   * The configuration New starts from: the service's own endpoint, and
   * verbose when debug.VERBOSE or debug.DEBUG is set (ambientVerbose).
   */
  function Base(ambientVerbose: bool): (conf: Options.Config)
    ensures conf.endpoint == DefaultEndpoint && conf.verbose == ambientVerbose
    ensures conf.overrideAddress == "" && conf.defaultSender == ZeroAddress && !conf.simulate
  {
    Options.Config(DefaultEndpoint, "", ZeroAddress, false, ambientVerbose)
  }

  /** The client a configuration describes, with the given API key. */
  function FromConfig(apikey: string, conf: Options.Config): (c: Client)
    ensures c.base == conf.endpoint && c.apikey == apikey && c.overrideAddress == conf.overrideAddress
    ensures c.defaultSender == conf.defaultSender && c.verbose == conf.verbose
  {
    Client(conf.endpoint, apikey, conf.overrideAddress, conf.defaultSender, conf.verbose)
  }

  /** New: the options applied in order to the base configuration; it never fails. */
  method New(apikey: string, opts: seq<Options.Option>, ambientVerbose: bool) returns (c: Client)
    ensures c == FromConfig(apikey, Options.Apply(Base(ambientVerbose), opts))
  {
    var conf := Base(ambientVerbose);
    for i := 0 to |opts|
      invariant conf == Options.Apply(Base(ambientVerbose), opts[..i])
    {
      assert opts[..i + 1][..i] == opts[..i];
      conf := opts[i](conf);
    }
    assert opts[..|opts|] == opts;
    c := FromConfig(apikey, conf);
  }

  /** Without options, New talks to the service's own endpoint with no override and no default sender. */
  lemma NewDefaults(apikey: string, ambientVerbose: bool)
    ensures var c := FromConfig(apikey, Options.Apply(Base(ambientVerbose), []));
      c == Client(DefaultEndpoint, apikey, "", ZeroAddress, ambientVerbose)
  {
  }

  /** client.StoreContacts: one PUT of the encoded upsert, unless encoding fails. */
  method StoreContacts(c: Client, contacts: seq<Contact>, lists: seq<string>, codec: Codec, transport: Transport)
    returns (err: Option<Failure>, sent: seq<Wire>)
    ensures var data := codec.encodeStore(StoreRequest(lists, contacts), false);
      if data.Err? then err == Some(data.error) && sent == []
      else (sent == [Outgoing(c.apikey, "PUT", Url(c.base, ContactsPath), Some(data.value))]
        && err == ErrorOf(Classify(transport(sent[0]))))
  {
    var data := codec.encodeStore(StoreRequest(lists, contacts), false);
    if data.Err? {
      return Some(data.error), [];
    }
    var reply, w := Perform(c.apikey, "PUT", Url(c.base, ContactsPath), Some(data.value), transport);
    err, sent := ErrorOf(reply), [w];
  }

  /** What a contact search with these parameters returns and sends. */
  ghost predicate Fetched(c: Client, params: Params, codec: Codec, transport: Transport,
                          r: Result<Contact>, sent: seq<Wire>)
  {
    sent == [Outgoing(c.apikey, "POST", SearchUrl(c.base, params, codec), None)]
    && r == SearchReply(Classify(transport(sent[0])), codec.decodeSearch)
  }

  /**
   * client.FetchContactWithParams: one POST with no body; the decoded
   * result list must hold exactly one contact.
   */
  method FetchContactWithParams(c: Client, params: Params, codec: Codec, transport: Transport)
    returns (r: Result<Contact>, sent: seq<Wire>)
    ensures Fetched(c, params, codec, transport, r, sent)
  {
    var reply, w := Perform(c.apikey, "POST", SearchUrl(c.base, params, codec), None, transport);
    sent := [w];
    if reply.Err? {
      return Err(reply.error), sent;
    }
    var decoded := codec.decodeSearch(reply.value);
    if decoded.Err? {
      return Err(decoded.error), sent;
    } else if |decoded.value| != 1 {
      return Err(NotFound), sent;
    }
    r := Ok(decoded.value[0]);
  }

  /** client.FetchContact: a search on the one parameter user_id. */
  method FetchContact(c: Client, id: string, codec: Codec, transport: Transport)
    returns (r: Result<Contact>, sent: seq<Wire>)
    ensures Fetched(c, map["user_id" := [id]], codec, transport, r, sent)
  {
    r, sent := FetchContactWithParams(c, map["user_id" := [id]], codec, transport);
  }

  /** client.FetchContactByEmail: a search on the one parameter email. */
  method FetchContactByEmail(c: Client, email: string, codec: Codec, transport: Transport)
    returns (r: Result<Contact>, sent: seq<Wire>)
    ensures Fetched(c, map["email" := [email]], codec, transport, r, sent)
  {
    r, sent := FetchContactWithParams(c, map["email" := [email]], codec, transport);
  }

  /**
   * prepareEmail: a new Email whose From and ReplyTo fall back to the
   * default sender and whose recipients are redirected. The copy is
   * shallow: it shares the personalizations array, and with it every
   * recipients array, with the caller's email, so the caller's recipients
   * are redirected too, while the caller's From, ReplyTo, template and
   * attachments stay as they were.
   */
  method PrepareEmail(email: Email, defaultSender: Address, overrideAddress: string) returns (dup: Email)
    modifies email.RecipientArrays()
    ensures fresh(dup) && dup != email
    ensures dup.personalizations == email.personalizations
    ensures dup.View() == Prepare(old(email.View()), defaultSender, overrideAddress)
    ensures email.View() == old(email.View()).(personalizations := dup.View().personalizations)
  {
    dup := email.Copy();
    FillSenders(dup, defaultSender);
    OverrideEmail(dup, overrideAddress);
  }

  /** The first half of prepareEmail: a zero From or ReplyTo is replaced by the default sender. */
  method FillSenders(dup: Email, defaultSender: Address)
    modifies dup
    ensures dup.personalizations == old(dup.personalizations)
    ensures dup.View() == Prepare(old(dup.View()), defaultSender, "")
  {
    if dup.from.IsZero() {
      dup.from := defaultSender;
    }
    if dup.replyTo.IsZero() {
      dup.replyTo := defaultSender;
    }
  }

  /**
   * client.SendEmail: the prepared email is encoded and POSTed. The
   * caller's recipients come back redirected; nothing else of the
   * caller's email changes.
   */
  method SendEmail(c: Client, email: Email, codec: Codec, transport: Transport)
    returns (err: Option<Failure>, sent: seq<Wire>)
    modifies email.RecipientArrays()
    ensures email.View() == old(email.View()).(
      personalizations := RedirectAll(old(email.View()).personalizations, c.overrideAddress))
    ensures var data := codec.encodeEmail(Prepare(old(email.View()), c.defaultSender, c.overrideAddress), false);
      if data.Err? then err == Some(data.error) && sent == []
      else (sent == [Outgoing(c.apikey, "POST", Url(c.base, MailPath), Some(data.value))]
        && err == ErrorOf(Classify(transport(sent[0]))))
  {
    var dup := PrepareEmail(email, c.defaultSender, c.overrideAddress);
    var data := codec.encodeEmail(dup.View(), false);
    if data.Err? {
      return Some(data.error), [];
    }
    var reply, w := Perform(c.apikey, "POST", Url(c.base, MailPath), Some(data.value), transport);
    err, sent := ErrorOf(reply), [w];
  }
}
