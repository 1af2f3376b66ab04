/**
 * The first generation of the client (sendgrid.go): a Client value built
 * from a Config, a simulate flag that short-circuits every operation
 * before the network, an override applied in place to the caller's email,
 * and the package's string helpers (SplitName, Error.Error, Traits).
 * debug.VERBOSE only switches tracing here and is left out, except in
 * Error.Error, where it changes the result and is a parameter.
 */
module Legacy {
  import opened Optional
  import opened Text
  import opened Mail
  import opened Dispatch

  const DefaultBase := "https://api.sendgrid.com/v3"

  datatype Config = Config(
    apiKey: string, baseUrl: string, overrideAddress: string, defaultSender: Address, simulate: bool)

  datatype Client = Client(
    base: string, apikey: string, overrideAddress: string, defaultSender: Address, simulate: bool)

  /** New: the configured base URL, or the service's own when none is given. */
  function New(conf: Config): (c: Client)
    ensures c.base != ""
    ensures conf.baseUrl != "" ==> c.base == conf.baseUrl
    ensures conf.baseUrl == "" ==> c.base == DefaultBase
    ensures c.apikey == conf.apiKey && c.overrideAddress == conf.overrideAddress
    ensures c.defaultSender == conf.defaultSender && c.simulate == conf.simulate
  {
    var base := if conf.baseUrl != "" then conf.baseUrl else DefaultBase;
    Client(base, conf.apiKey, conf.overrideAddress, conf.defaultSender, conf.simulate)
  }

  /** Client.WithBaseURL: a copy on another base URL, which may be empty. */
  function WithBaseURL(c: Client, u: string): (d: Client)
    ensures d.base == u && d.(base := c.base) == c
  {
    c.(base := u)
  }

  /** Client.StoreContacts: nothing at all when simulating; otherwise one PUT. */
  method StoreContacts(c: Client, contacts: seq<Contact>, lists: seq<string>, codec: Codec, transport: Transport)
    returns (err: Option<Failure>, sent: seq<Wire>)
    ensures c.simulate ==> err == None && sent == []
    ensures !c.simulate ==>
      var data := codec.encodeStore(StoreRequest(lists, contacts), false);
      if data.Err? then err == Some(data.error) && sent == []
      else (sent == [Outgoing(c.apikey, "PUT", Url(c.base, ContactsPath), Some(data.value))]
        && err == ErrorOf(Classify(transport(sent[0]))))
  {
    if c.simulate {
      return None, [];
    }
    var data := codec.encodeStore(StoreRequest(lists, contacts), false);
    if data.Err? {
      return Some(data.error), [];
    }
    var reply, w := Perform(c.apikey, "PUT", Url(c.base, ContactsPath), Some(data.value), transport);
    err, sent := ErrorOf(reply), [w];
  }

  /** What a contact search with these parameters returns and sends. */
  ghost predicate Fetched(c: Client, params: Params, codec: Codec, transport: Transport,
                          r: Result<Contact>, sent: seq<Wire>)
  {
    if c.simulate then r == Err(NotFound) && sent == []
    else
      sent == [Outgoing(c.apikey, "POST", SearchUrl(c.base, params, codec), None)]
      && r == SearchReply(Classify(transport(sent[0])), codec.decodeSearch)
  }

  /**
   * Client.fetchContact: NotFound without a request when simulating;
   * otherwise one POST, and the decoded result list must hold exactly one
   * contact.
   */
  method FetchContactWithParams(c: Client, params: Params, codec: Codec, transport: Transport)
    returns (r: Result<Contact>, sent: seq<Wire>)
    ensures Fetched(c, params, codec, transport, r, sent)
  {
    if c.simulate {
      return Err(NotFound), [];
    }
    var reply, w := Perform(c.apikey, "POST", SearchUrl(c.base, params, codec), None, transport);
    sent := [w];
    if reply.Err? {
      return Err(reply.error), sent;
    }
    var decoded := codec.decodeSearch(reply.value);
    if decoded.Err? {
      return Err(decoded.error), sent;
    } else if |decoded.value| != 1 {
      return Err(NotFound), sent;
    }
    r := Ok(decoded.value[0]);
  }

  /** Client.FetchContact: a search on the one parameter ext_id. */
  method FetchContact(c: Client, id: string, codec: Codec, transport: Transport)
    returns (r: Result<Contact>, sent: seq<Wire>)
    ensures Fetched(c, map["ext_id" := [id]], codec, transport, r, sent)
  {
    r, sent := FetchContactWithParams(c, map["ext_id" := [id]], codec, transport);
  }

  /** Client.FetchContactByEmail: a search on the one parameter email. */
  method FetchContactByEmail(c: Client, email: string, codec: Codec, transport: Transport)
    returns (r: Result<Contact>, sent: seq<Wire>)
    ensures Fetched(c, map["email" := [email]], codec, transport, r, sent)
  {
    r, sent := FetchContactWithParams(c, map["email" := [email]], codec, transport);
  }

  /**
   * Client.SendEmail. The override is applied to the caller's own email,
   * in place, before anything else; From and ReplyTo are left alone. When
   * simulating, the email is encoded (indented) for the trace and no
   * request is made.
   */
  method SendEmail(c: Client, email: Email, codec: Codec, transport: Transport)
    returns (err: Option<Failure>, sent: seq<Wire>)
    modifies email.RecipientArrays()
    ensures email.View() == old(email.View()).(
      personalizations := RedirectAll(old(email.View()).personalizations, c.overrideAddress))
    ensures var data := codec.encodeEmail(email.View(), c.simulate);
      if data.Err? then err == Some(data.error) && sent == []
      else if c.simulate then err == None && sent == []
      else (sent == [Outgoing(c.apikey, "POST", Url(c.base, MailPath), Some(data.value))]
        && err == ErrorOf(Classify(transport(sent[0]))))
  {
    OverrideEmail(email, c.overrideAddress);
    var view := email.View();
    var data := codec.encodeEmail(view, c.simulate);
    if data.Err? {
      return Some(data.error), [];
    }
    if c.simulate {
      return None, [];
    }
    var reply, w := Perform(c.apikey, "POST", Url(c.base, MailPath), Some(data.value), transport);
    err, sent := ErrorOf(reply), [w];
  }

  // ---- Error ----

  /** The service's error body: a message and the indices of the failing inputs. */
  datatype ApiError = ApiError(message: string, indices: seq<int>)

  const IndicesOpen := " (input indices: "

  /**
   * Error.Error, with debug.VERBOSE as a parameter: the message, followed
   * in verbose mode by the comma-separated indices when there are any.
   */
  function ErrorText(e: ApiError, verbose: bool): (s: string)
    ensures !verbose || |e.indices| == 0 ==> s == e.message
    ensures |e.message| <= |s| && s[..|e.message|] == e.message
  {
    if verbose && |e.indices| > 0 then
      e.message + IndicesOpen + Join(Itoas(e.indices), ", ") + ")"
    else
      e.message
  }

  /** Reads the indices back out of a verbose error text with a known message. */
  function ReadIndices(s: string, message: string): Option<seq<int>> {
    var head := message + IndicesOpen;
    if |s| > |head| && s[..|head|] == head && s[|s| - 1] == ')' then
      AtoiAll(SplitList(s[|head|..|s| - 1]))
    else
      None
  }

  /** In verbose mode the indices can be read back exactly from the text. */
  lemma ErrorTextRoundTrip(e: ApiError)
    requires |e.indices| > 0
    ensures ReadIndices(ErrorText(e, true), e.message) == Some(e.indices)
  {
    var head := e.message + IndicesOpen;
    var joined := Join(Itoas(e.indices), ", ");
    var s := ErrorText(e, true);
    assert s == head + joined + ")";
    assert s[..|head|] == head;
    assert s[|head|..|s| - 1] == joined;
    NumberListRoundTrip(e.indices);
  }

  /** Error.Error as written: a strings.Builder filled in a loop. */
  method Render(e: ApiError, verbose: bool) returns (s: string)
    ensures s == ErrorText(e, verbose)
  {
    s := e.message;
    if verbose && |e.indices| > 0 {
      s := s + IndicesOpen;
      s := WriteIndices(s, e.indices);
      s := s + ")";
    }
  }

  /** The loop of Error.Error: writes the numbers to the builder, ", " between two. */
  method WriteIndices(s0: string, ns: seq<int>) returns (s: string)
    ensures s == s0 + Join(Itoas(ns), ", ")
  {
    s := s0;
    for i := 0 to |ns|
      invariant s == s0 + Join(Itoas(ns[..i]), ", ")
    {
      var item := Itoa(ns[i]);
      WriteStep(s0, ns, i, s);
      if i > 0 {
        s := s + ", ";
      }
      s := s + item;
    }
    assert ns[..|ns|] == ns;
  }

  /** One turn of the loop of Error.Error keeps the builder equal to the joined prefix. */
  lemma WriteStep(s0: string, ns: seq<int>, i: nat, s: string)
    requires i < |ns| && s == s0 + Join(Itoas(ns[..i]), ", ")
    ensures (if i > 0 then s + ", " + Itoa(ns[i]) else s + Itoa(ns[i])) == s0 + Join(Itoas(ns[..i + 1]), ", ")
  {
    var written := Join(Itoas(ns[..i]), ", ");
    var item := Itoa(ns[i]);
    JoinItoasStep(ns, i, ", ");
    if i > 0 {
      assert s + ", " + item == s0 + (written + ", " + item);
    } else {
      assert s == s0;
    }
  }

  // ---- SplitName ----

  /**
   * SplitName: at the last space, when it is not the first character, into
   * the trimmed text before it and the trimmed text after it; otherwise the
   * whole name and "".
   */
  function SplitName(n: string): (names: (string, string))
    ensures ' ' !in names.1 && Trimmed(names.1)
    ensures LastIndex(n, ' ') <= 0 ==> names == (n, "")
    ensures LastIndex(n, ' ') > 0 ==> Trimmed(names.0) && |names.0| + |names.1| < |n|
    ensures LastIndex(n, ' ') > 0 ==>
      names == (TrimSpace(n[..LastIndex(n, ' ')]), TrimSpace(n[LastIndex(n, ' ') + 1..]))
  {
    var i := LastIndex(n, ' ');
    if i > 0 then
      TrimSpaceKeepsOut(n[i + 1..], ' ');
      (TrimSpace(n[..i]), TrimSpace(n[i + 1..]))
    else
      (n, "")
  }

  /**
   * A first name and a one-word last name, joined by a space and padded
   * with white space around either of them (a run of spaces between them,
   * leading blanks, a trailing newline), split back into the two. The
   * padding after the last name holds no space, or the split would fall
   * there.
   */
  lemma SplitNameJoin(a: string, first: string, b: string, last: string, c: string)
    requires AllSpace(a) && AllSpace(b) && AllSpace(c) && ' ' !in c
    requires first != "" && Trimmed(first) && Trimmed(last) && ' ' !in last
    ensures SplitName(a + first + b + " " + last + c) == (first, last)
  {
    var left, right := a + first + b, last + c;
    NoSpaceAppend(last, c);
    AppendAssoc(left + " ", last, c);
    SplitAtSpace(left, right);
    TrimSpaceUnique(a, first, b);
    EmptyAppend(last);
    TrimSpaceUnique([], last, c);
  }

  lemma NoSpaceAppend(x: string, y: string)
    requires ' ' !in x && ' ' !in y
    ensures ' ' !in x + y
  {
  }

  lemma EmptyAppend(x: string)
    ensures [] + x == x
  {
  }

  lemma AppendAssoc(x: string, y: string, z: string)
    ensures x + y + z == x + (y + z)
  {
  }

  /** The last space of left + " " + right, when right has none, is the one between them. */
  lemma SplitAtSpace(left: string, right: string)
    requires ' ' !in right
    ensures var n := left + " " + right;
      LastIndex(n, ' ') == |left| && n[..|left|] == left && n[|left| + 1..] == right
  {
    var n := left + " " + right;
    forall k | |left| < k < |n| ensures n[k] != ' ' {
      assert n[k] == right[k - |left| - 1];
    }
    LastIndexAt(n, ' ', |left|);
    assert n[..|left|] == left;
    assert n[|left| + 1..] == right;
  }

  // ---- Traits ----

  /** A custom field. */
  datatype Field = Field(id: int, name: string, fieldType: string, value: string)

  /** The names of a list of fields. */
  function Names(t: seq<Field>): set<string> {
    set k | 0 <= k < |t| :: t[k].name
  }

  lemma NamesSnoc(t: seq<Field>, f: Field)
    ensures Names(t + [f]) == Names(t) + {f.name}
  {
    var u := t + [f];
    forall n | n in Names(t) + {f.name} ensures n in Names(u) {
      if n == f.name {
        assert u[|t|].name == n;
      } else {
        var k :| 0 <= k < |t| && t[k].name == n;
        assert u[k].name == n;
      }
    }
  }

  /** Field k describes entry t[k].name of m as a string field. */
  predicate Describes<V>(m: map<string, V>, show: V -> string, t: seq<Field>) {
    forall k :: 0 <= k < |t| ==>
      t[k].name in m && t[k] == Field(0, t[k].name, "string", show(m[t[k].name]))
  }

  predicate DistinctNames(t: seq<Field>) {
    forall k, l :: 0 <= k < l < |t| ==> t[k].name != t[l].name
  }

  /** t holds one field for every key of m not in todo, each once. */
  predicate TraitsSoFar<V>(m: map<string, V>, show: V -> string, t: seq<Field>, todo: set<string>) {
    todo <= m.Keys && Names(t) == m.Keys - todo && |t| + |todo| == |m.Keys|
    && Describes(m, show, t) && DistinctNames(t)
  }

  lemma TraitsStep<V>(m: map<string, V>, show: V -> string, t: seq<Field>, todo: set<string>, key: string)
    requires TraitsSoFar(m, show, t, todo) && key in todo
    ensures TraitsSoFar(m, show, t + [Field(0, key, "string", show(m[key]))], todo - {key})
  {
    var f := Field(0, key, "string", show(m[key]));
    var u := t + [f];
    assert Names(u) == m.Keys - (todo - {key}) by {
      NamesSnoc(t, f);
    }
    assert |u| + |todo - {key}| == |m.Keys|;
    assert Describes(m, show, u) by {
      assert forall k :: 0 <= k < |t| ==> u[k] == t[k];
    }
    assert DistinctNames(u) by {
      assert forall k :: 0 <= k < |t| ==> u[k] == t[k] && t[k].name in Names(t);
    }
  }

  /**
   * Traits: one string field per entry of the map, in the map's (unspecified)
   * iteration order; show stands for fmt.Sprint.
   */
  method Traits<V>(m: map<string, V>, show: V -> string) returns (t: seq<Field>)
    ensures |t| == |m|
    ensures Names(t) == m.Keys
    ensures Describes(m, show, t)
    ensures DistinctNames(t)
  {
    var todo := m.Keys;
    t := [];
    while todo != {}
      invariant TraitsSoFar(m, show, t, todo)
      decreases |todo|
    {
      var key :| key in todo;
      TraitsStep(m, show, t, todo, key);
      t, todo := t + [Field(0, key, "string", show(m[key]))], todo - {key};
    }
    assert |m| == |m.Keys|;
  }
}
