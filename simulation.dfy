/**
 * The mock client of the second generation (mock.go): it prepares and
 * traces what the real client would send, never talks to the network,
 * reports success for every write and NotFound for every read. The trace
 * line it prints is returned as a value instead.
 */
module Simulation {
  import opened Optional
  import opened Mail
  import opened Dispatch
  import Options
  import Live

  datatype Client = Client(base: string, defaultSender: Address, overrideAddress: string, verbose: bool)

  /** The configuration Mock starts from: the service's endpoint and, unlike New, never verbose. */
  function Base(): (conf: Options.Config)
    ensures conf == Live.Base(false)
  {
    Options.Config(Live.DefaultEndpoint, "", ZeroAddress, false, false)
  }

  function FromConfig(conf: Options.Config): (c: Client)
    ensures c.base == conf.endpoint && c.defaultSender == conf.defaultSender
    ensures c.overrideAddress == conf.overrideAddress && c.verbose == conf.verbose
  {
    Client(conf.endpoint, conf.defaultSender, conf.overrideAddress, conf.verbose)
  }

  /** Mock: the options applied in order to the base configuration; the API key is ignored. */
  method Mock(apikey: string, opts: seq<Options.Option>) returns (c: Client)
    ensures c == FromConfig(Options.Apply(Base(), opts))
  {
    var conf := Base();
    for i := 0 to |opts|
      invariant conf == Options.Apply(Base(), opts[..i])
    {
      assert opts[..i + 1][..i] == opts[..i];
      conf := opts[i](conf);
    }
    assert opts[..|opts|] == opts;
    c := FromConfig(conf);
  }

  /**
   * A mock built from some options has the base, sender, override and
   * verbosity of a real client built from the same options when the debug
   * switches are off.
   */
  lemma MockAgreesWithQuietNew(apikey: string, opts: seq<Options.Option>)
    ensures var m, n := FromConfig(Options.Apply(Base(), opts)),
                        Live.FromConfig(apikey, Options.Apply(Live.Base(false), opts));
      m.base == n.base && m.defaultSender == n.defaultSender
      && m.overrideAddress == n.overrideAddress && m.verbose == n.verbose
  {
  }

  /** What dump is given to show: a prepared email or a contact upsert. */
  datatype Entity = EmailEntity(email: EmailValue) | StoreEntity(store: StoreRequest)

  /** json.MarshalIndent of an entity. */
  function Encode(entity: Entity, codec: Codec): Result<Bytes> {
    match entity
    case EmailEntity(e) => codec.encodeEmail(e, true)
    case StoreEntity(s) => codec.encodeStore(s, true)
  }

  /** The trace line dump prints, with the indented payload when there is one. */
  datatype Trace = Trace(verb: string, url: Url, payload: Option<Bytes>)

  /** What dump returns (err) and prints (shown). */
  datatype Dumped = Dumped(err: Option<Failure>, shown: Option<Trace>)

  /**
   * mock.dump: the entity is encoded only when verbose and there is one;
   * a failed encoding is returned and nothing is printed; otherwise the
   * verb and URL are printed, followed by the payload when it is not empty.
   */
  function Dump(c: Client, verb: string, path: string, entity: Option<Entity>, codec: Codec): (d: Dumped)
    ensures d.err.Some? <==> c.verbose && entity.Some? && Encode(entity.value, codec).Err?
    ensures d.err.Some? ==> d.err.value == Encode(entity.value, codec).error && d.shown == None
    ensures d.err.None? ==> d.shown.Some? && d.shown.value.verb == verb && d.shown.value.url == Url(c.base, path)
    ensures d.shown.Some? && d.shown.value.payload.Some?
      <==> c.verbose && entity.Some? && Encode(entity.value, codec).Ok? && |Encode(entity.value, codec).value| > 0
    ensures d.shown.Some? && d.shown.value.payload.Some? ==> d.shown.value.payload.value == Encode(entity.value, codec).value
  {
    var data := if c.verbose && entity.Some? then Encode(entity.value, codec) else Ok([]);
    if data.Err? then Dumped(Some(data.error), None)
    else Dumped(None, Some(Trace(verb, Url(c.base, path), if |data.value| > 0 then Some(data.value) else None)))
  }

  /** Without verbose, or without an entity, dump cannot fail and shows only the verb and URL. */
  lemma QuietDump(c: Client, verb: string, path: string, entity: Option<Entity>, codec: Codec)
    requires !c.verbose || entity.None?
    ensures Dump(c, verb, path, entity, codec) == Dumped(None, Some(Trace(verb, Url(c.base, path), None)))
  {
  }

  /**
   * mock.SendEmail: dumps the email prepareEmail makes and reports success
   * whatever dump returns. As with the real client, the caller's
   * recipients come back redirected.
   */
  method SendEmail(c: Client, email: Email, codec: Codec) returns (err: Option<Failure>, dumped: Dumped)
    modifies email.RecipientArrays()
    ensures err == None
    ensures dumped == Dump(c, "POST", MailPath,
      Some(EmailEntity(Prepare(old(email.View()), c.defaultSender, c.overrideAddress))), codec)
    ensures email.View() == old(email.View()).(
      personalizations := RedirectAll(old(email.View()).personalizations, c.overrideAddress))
  {
    var dup := Live.PrepareEmail(email, c.defaultSender, c.overrideAddress);
    dumped := Dump(c, "POST", MailPath, Some(EmailEntity(dup.View())), codec);
    err := None;
  }

  /** mock.StoreContacts: dumps the upsert and reports success whatever dump returns. */
  function StoreContacts(c: Client, contacts: seq<Contact>, lists: seq<string>, codec: Codec)
    : (r: (Option<Failure>, Dumped))
    ensures r.0 == None
    ensures r.1 == Dump(c, "PUT", ContactsPath, Some(StoreEntity(StoreRequest(lists, contacts))), codec)
    ensures r.1.err.None? ==> r.1.shown.Some? && r.1.shown.value.url == Url(c.base, ContactsPath) && r.1.shown.value.verb == "PUT"
    ensures !c.verbose ==> r.1 == Dumped(None, Some(Trace("PUT", Url(c.base, ContactsPath), None)))
  {
    (None, Dump(c, "PUT", ContactsPath, Some(StoreEntity(StoreRequest(lists, contacts))), codec))
  }

  /**
   * mock.FetchContactWithParams: always NotFound. The traced path is the
   * search path, with '?' and the encoded query only when there are
   * parameters.
   */
  method FetchContactWithParams(c: Client, params: Params, codec: Codec) returns (r: Result<Contact>, dumped: Dumped)
    ensures r == Err(NotFound)
    ensures dumped.err == None && dumped.shown.Some?
    ensures dumped.shown.value.verb == "POST" && dumped.shown.value.payload == None
    ensures dumped.shown.value.url.base == c.base
    ensures |params| == 0 ==> dumped.shown.value.url.path == SearchPath
    ensures |params| > 0 ==> dumped.shown.value.url.path == SearchPath + "?" + codec.encodeQuery(params)
    ensures '?' in dumped.shown.value.url.path <==> |params| > 0
  {
    var path := SearchPath;
    if |params| > 0 {
      path := path + "?" + codec.encodeQuery(params);
      assert path[|SearchPath|] == '?';
    }
    dumped := Dump(c, "POST", path, None, codec);
    return Err(NotFound), dumped;
  }

  /** mock.FetchContact: a search on the one parameter ext_id, so always NotFound. */
  method FetchContact(c: Client, id: string, codec: Codec) returns (r: Result<Contact>, dumped: Dumped)
    ensures r == Err(NotFound)
    ensures dumped.err == None && dumped.shown.Some?
    ensures dumped.shown.value.url == Url(c.base, SearchPath + "?" + codec.encodeQuery(map["ext_id" := [id]]))
  {
    r, dumped := FetchContactWithParams(c, map["ext_id" := [id]], codec);
  }

  /** mock.FetchContactByEmail: a search on the one parameter email, so always NotFound. */
  method FetchContactByEmail(c: Client, email: string, codec: Codec) returns (r: Result<Contact>, dumped: Dumped)
    ensures r == Err(NotFound)
    ensures dumped.err == None && dumped.shown.Some?
    ensures dumped.shown.value.url == Url(c.base, SearchPath + "?" + codec.encodeQuery(map["email" := [email]]))
  {
    r, dumped := FetchContactWithParams(c, map["email" := [email]], codec);
  }
}
