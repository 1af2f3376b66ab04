# go-sendgrid v1, modelled in Dafny

A model of the two client generations of the `sendgrid` Go package.

- The **first generation** (`v1/sendgrid.go`, module `Legacy`) builds a client from a `Config`. It has a
  `simulate` flag that stops every operation before the network, and it applies the recipient override
  in place to the caller's email. It also holds the package helpers `SplitName`, `Error.Error` and `Traits`.
- The **second generation** (`v1/client.go`, `v1/option.go`, `v1/mock.go`; modules `Live`, `Options`,
  `Simulation`) builds a client by folding functional options over a default configuration. Its
  `prepareEmail` fills in a default sender on a shallow copy of the email. The mock client traces what
  would be sent, reports success for writes and `ErrNotFound` for reads.

Shared pieces:

- `Mail` holds the package's data types. An `Email` is a class; its personalizations and every
  recipients list are heap arrays, so the sharing created by a shallow struct copy is visible to the
  verifier.
- `Dispatch` holds the error kinds, the header decoration and status classification of `Send`, and the
  exactly-one rule for contact searches.
- `Text` holds the standard-library string functions the helpers rely on (`unicode.IsSpace`,
  `strings.TrimSpace`, `strings.LastIndex`, `strconv.Itoa`) and the `", "`-separated list that the
  `strings.Builder` loop of `Error.Error` writes, each with a reader that undoes it or a
  characterisation of its result.
- `Optional` holds the option type.

The network is a function parameter `Transport` from the request as sent (`Wire`) to what came back
(`Exchange`: a transport failure, or a status code, status line and body). The real clients' operations
return the list of requests they handed to the transport, so "no request was made" can be stated.
JSON encoding and decoding and query encoding are the function-valued fields of a `Codec` parameter.

## Model

| member | source | states |
|---|---|---|
| Mail.Email.constructor | v1/sendgrid.go:59-66 | an email holds the given template, sender, reply-to, personalizations array and attachments |
| Mail.Email.Copy | v1/client.go:207 | the copy is a new email with the same value, sharing the personalizations array |
| Mail.RedirectAll | v1/client.go:214-223 | with an empty override the personalizations are unchanged; otherwise every recipient's email is the override, its name is kept, and counts, subjects and substitutions are kept |
| Mail.Prepare | v1/client.go:206-225 | a zero From or ReplyTo becomes the default sender and a non-zero one is kept; template and attachments are kept; recipients are redirected |
| Mail.RedirectAllIdempotent | v1/client.go:214-223 | redirecting twice is redirecting once |
| Mail.PrepareIdempotent | v1/client.go:206-225 | preparing a prepared email changes nothing |
| Mail.RedirectEach | v1/sendgrid.go:248-253 | every entry of one recipients array is the override address with its old name |
| Mail.OverrideRecipients | v1/sendgrid.go:246-255 | every recipient reached through the personalizations is its old value redirected, also when two personalizations share an array |
| Mail.OverrideEmail | v1/sendgrid.go:246-255 | the email's value afterwards is its old value with the personalizations redirected and nothing else changed |
| Dispatch.Decorate | v1/client.go:151-156 | Authorization is "Bearer "+key exactly when there is a key, Content-Type is application/json exactly when there is a body, every other header is untouched |
| Dispatch.DecorateFresh | v1/client.go:151-156 | a new request ends up with exactly those two headers, each present only under its condition |
| Dispatch.Failure.Message | v1/sendgrid.go:21-25 | the five sentinels have fixed non-empty texts; an unexpected status reads "Unexpected status code: " followed by its status line, as at v1/client.go:202 |
| Dispatch.MessageIdentifies | v1/sendgrid.go:21-25 | two errors the package makes itself have the same text iff they are the same error |
| Dispatch.Classify | v1/client.go:188-203 | transport failures pass through; success iff a 2xx status, with the body; 400/401/403/500 give their sentinel; any other status gives the unexpected-status error with the status line |
| Dispatch.ClassifyByTable | v1/sendgrid.go:326-341 | every non-2xx classification agrees with the table of four named codes |
| Dispatch.SentinelFromItsCode | v1/sendgrid.go:330-338 | a sentinel error comes from its own status code and from nothing else |
| Dispatch.Send | v1/client.go:150-204 | the request's headers become Decorate of the old ones and the result is the classification of the exchange |
| Dispatch.Perform | v1/sendgrid.go:288-341 | the request sent carries only the decoration and the reply is classified |
| Dispatch.SoleContact | v1/client.go:107-111 | success iff exactly one contact was found, giving it; otherwise ErrNotFound |
| Dispatch.SearchReply | v1/sendgrid.go:208-226 | a send error and a decode error are each returned unchanged; success iff the decoded list has one element, giving it; any other count gives ErrNotFound |
| Dispatch.SearchUrl | v1/sendgrid.go:203-204 | the search path, then '?', then the encoded query, even when it is empty; the query is exactly what follows the first '?' |
| Text.TrimSpace | v1/sendgrid.go:347-348 | no white space is left at either end |
| Text.TrimSpaceUnique | v1/sendgrid.go:347-348 | white space around a trimmed string is exactly what trimming removes |
| Text.TrimSpaceIdempotent | v1/sendgrid.go:347-348 | trimming twice is trimming once |
| Text.TrimSpaceKeepsOut | v1/sendgrid.go:348 | trimming cannot introduce a character |
| Text.LastIndex | v1/sendgrid.go:346 | -1 when the character is absent, otherwise a position holding it with none after it |
| Text.LastIndexAt | v1/sendgrid.go:346 | the last occurrence is the position reported |
| Text.Itoa | v1/sendgrid.go:112 | a non-empty decimal text with no comma or space |
| Text.ItoaRoundTrip | v1/sendgrid.go:112 | reading the decimal text back gives the number |
| Text.JoinItoasStep | v1/sendgrid.go:108-113 | each loop turn appends ", " (after the first) and the next number to the joined list |
| Text.SplitJoin | v1/sendgrid.go:109-111 | splitting a ", "-joined list of comma-free parts gives the parts back |
| Text.NumberListRoundTrip | v1/sendgrid.go:108-113 | a non-empty number list written with ", " reads back exactly |
| Legacy.New | v1/sendgrid.go:138-153 | base is the configured URL when non-empty, otherwise the default, so never empty; key, override, sender and simulate are copied |
| Legacy.WithBaseURL | v1/sendgrid.go:156-160 | a copy with only the base replaced |
| Legacy.StoreContacts | v1/sendgrid.go:174-195 | simulating: success and no request; otherwise an encoding error and no request, or one PUT whose classified reply is the result |
| Legacy.FetchContactWithParams | v1/sendgrid.go:198-226 | simulating: ErrNotFound and no request; otherwise one bodiless POST to the search URL and the exactly-one rule on the decoded reply |
| Legacy.FetchContact | v1/sendgrid.go:229-233 | a search on the single parameter ext_id |
| Legacy.FetchContactByEmail | v1/sendgrid.go:236-240 | a search on the single parameter email |
| Legacy.SendEmail | v1/sendgrid.go:243-285 | the caller's email is left redirected in place and otherwise unchanged; an encoding error is returned; simulating sends nothing; otherwise one POST whose classified reply is the result |
| Legacy.ErrorText | v1/sendgrid.go:103-117 | exactly the message unless verbose with indices; the message is always a prefix |
| Legacy.ErrorTextRoundTrip | v1/sendgrid.go:106-115 | in verbose mode the indices can be read back exactly from the text |
| Legacy.Render | v1/sendgrid.go:103-117 | the builder produces ErrorText |
| Legacy.WriteIndices | v1/sendgrid.go:108-113 | the loop appends the numbers joined by ", " to what the builder holds |
| Legacy.SplitName | v1/sendgrid.go:344-353 | last space at position 0 or absent: the whole name and ""; otherwise TrimSpace of the text before the last space and TrimSpace of the text after it, so two trimmed parts, the last without spaces, together shorter than the name |
| Legacy.SplitNameJoin | v1/sendgrid.go:344-353 | a first name and a one-word last name joined by a space split back into the two, whatever white space pads them (leading blanks, a run of spaces between them, a trailing newline) |
| Legacy.Traits | v1/sendgrid.go:76-86 | one string field per map entry: as many as entries, names exactly the keys, each once, value the printed entry |
| Options.Endpoint | v1/option.go:12-17 | sets the endpoint and nothing else |
| Options.DefaultSender | v1/option.go:19-24 | sets the default sender and nothing else |
| Options.OverrideAddress | v1/option.go:26-31 | sets the override address and nothing else |
| Options.Apply | v1/client.go:39-45 | the fold of the options over a starting configuration, first to last: no options leave it as it was, and the last option is applied to what all the others built |
| Options.ApplyAppend | v1/client.go:43-45 | folding a concatenation is folding the halves in turn |
| Options.OptionsIdempotent | v1/option.go:12-31 | each option applied twice equals once |
| Options.OptionsCommute | v1/option.go:12-31 | options on different fields commute |
| Options.OptionsKeepOtherFields | v1/option.go:12-31 | each option keeps the two fields it is not about |
| Options.ApplyKeeps | v1/client.go:43-45 | a fold over options that keep a field keeps it |
| Options.LastWriterWins | v1/client.go:43-45 | a field is what the last option that writes it made it |
| Options.LastEndpointWins | v1/mock.go:23-25 | the last Endpoint option decides the endpoint |
| Live.Base | v1/client.go:39-42 | the fold starts from the default endpoint and the ambient verbosity |
| Live.FromConfig | v1/client.go:46-53 | the client copies endpoint, override, sender and verbosity, and takes the API key |
| Live.New | v1/client.go:38-54 | the client is the one the options folded in order over the base describe |
| Live.NewDefaults | v1/client.go:39-42 | with no options: default endpoint, no override, zero sender |
| Live.StoreContacts | v1/client.go:63-85 | an encoding error and no request, or one PUT whose classified reply is the result |
| Live.FetchContactWithParams | v1/client.go:88-112 | one bodiless POST to the search URL ("?" always appended) and the exactly-one rule |
| Live.FetchContact | v1/client.go:115-119 | a search on the single parameter user_id |
| Live.FetchContactByEmail | v1/client.go:122-126 | a search on the single parameter email |
| Live.FillSenders | v1/client.go:208-213 | a zero From or ReplyTo becomes the default sender, nothing else changes |
| Live.PrepareEmail | v1/client.go:206-225 | a new email whose value is Prepare of the caller's; it shares the personalizations array, so the caller's recipients are redirected too while its From, ReplyTo, template and attachments are unchanged |
| Live.SendEmail | v1/client.go:129-146 | the caller's recipients come back redirected; the prepared email's encoding error is returned, or one POST whose classified reply is the result |
| Simulation.Base | v1/mock.go:20-22 | the mock starts from the real client's base with verbosity off |
| Simulation.FromConfig | v1/mock.go:26-31 | the mock copies endpoint, sender, override and verbosity |
| Simulation.Mock | v1/mock.go:19-32 | the mock is the one the options folded in order over its base describe |
| Simulation.MockAgreesWithQuietNew | v1/mock.go:19-32 | a mock agrees with a real client built from the same options with the debug switches off |
| Simulation.Dump | v1/mock.go:65-79 | encodes only when verbose and given an entity; fails iff that encoding fails, then shows nothing; otherwise shows verb and URL, with the payload iff it is non-empty |
| Simulation.QuietDump | v1/mock.go:67-78 | without verbose or without an entity dump cannot fail and shows no payload |
| Simulation.SendEmail | v1/mock.go:34-37 | always success; the dumped entity is the prepared email; the caller's recipients come back redirected |
| Simulation.StoreContacts | v1/mock.go:39-42 | always success, whatever dump reports; dumps the upsert of exactly the given contacts and lists with a PUT to the contacts path |
| Simulation.FetchContactWithParams | v1/mock.go:56-63 | always ErrNotFound; the traced path has '?' and the query iff there are parameters |
| Simulation.FetchContact | v1/mock.go:44-48 | ErrNotFound, tracing a search on ext_id |
| Simulation.FetchContactByEmail | v1/mock.go:50-54 | ErrNotFound, tracing a search on email |

## Left out

- The network: `http.Client.Do`, the 30-second timeout and reading the response body are the `Transport`
  parameter. A failed body read is a transport failure like a failed `Do`.
- Tracing of the real clients (`debug.VERBOSE` in `Send`, the client's `verbose` flag): printing is not
  modelled, and neither is the error from re-reading the request body while tracing (v1/client.go:161-164,
  v1/sendgrid.go:299-302). The legacy simulate trace is not modelled either. The mock's trace is returned
  as a `Dumped` value.
- `urls.Join` is not part of this model: a URL is kept as the pair (base, path).
- `json.Marshal`, `json.MarshalIndent`, `json.Unmarshal` and `url.Values.Encode` are the fields of the
  `Codec` parameter. No property of the JSON layout is stated.
- The `url.Parse` error of `http.NewRequest` is not modelled: URLs are not parsed.
- `NewAttachment` only wraps base64 encoding and is not modelled.
- `Client.DefaultSender()` of v1/sendgrid.go:163-165 returns a field, and the model's `Client` exposes that
  field directly.
- `Address.IsZero` is not defined in v1/sendgrid.go, v1/client.go, v1/mock.go or v1/option.go. It is taken to mean "the email is empty".
- `Config` in v1/option.go declares `Simulate` but no `Verbose`, yet v1/client.go:41 and v1/mock.go:30
  use `conf.Verbose`. `Options.Config` has both fields.
- `debug.VERBOSE || debug.DEBUG` is the `ambientVerbose` parameter of `Live.New`.
- Strings are sequences of code points. Go's `strings.LastIndex` and slicing count bytes of UTF-8, which
  agrees here because the needle is an ASCII space.
- `fmt.Sprint` in `Traits` is a function parameter. Go's map iteration order is any order the model's
  choice `:|` can make.
- The error values: `Failure.Message` gives each error's text. Errors from the transport or codec keep
  their cause text as the library would print it.
- Live.FetchContact: it searches on `user_id`, while the legacy and mock clients search on `ext_id`. Each
  is modelled as written.
- Legacy.FetchContactWithParams, Live.FetchContactWithParams: the search URL always gets a '?', even with
  no parameters. Only the mock leaves it out.
- Options.Endpoint: nothing stops an empty endpoint, and the option accepts one as written.
