# An HTTP proxy connection, modelled and proved

This project models the server side of an HTTP proxy in Dafny and proves how it
behaves over whole runs. The proxy takes a request from a client, resolves and
connects to its origin server, forwards a rewritten request and a rewritten response,
keeps both connections for further requests, or opens a tunnel for CONNECT. All of it
is driven by completion handlers that share one timer.

## How the project is built

- `Text.dfy`: byte strings, the search for the blank line that ends a head, numbers in
  text, and the counters of the program with their widths.
- `ChunkChecker.dfy`, `ChunkGrammar.dfy`: the incremental checker of chunked bodies
  (section 4.1 of RFC 7230), as a function of a byte and as the object with its loop;
  the grammar it recognises.
- `Base64.dfy`, `Authentication.dfy`: the two coding loops and their tables
  (sections 3.5 and 4 of RFC 4648), and Basic authentication (section 2 of RFC 7617).
- `HeaderMap.dfy`, `HeaderFields.dfy`, `HeaderGrammar.dfy`: the case-insensitive,
  stably ordered container; the field parser; its grammar (sections 3.2 and 3.2.4 of
  RFC 7230 and the program's leniencies).
- `RequestUri.dfy`, `HeaderParser.dfy`: the two patterns for request targets by their
  backtracking order (section 5.3 of RFC 7230), and the parsers of whole heads.
- `HeadLines.dfy`: what first lines and targets must look like, by characters.
- `HeadPrinter.dfy`, `HeadRoundTrips.dfy`: the head printers and what a reader of the
  printed heads sees.
- `ProxyContext.dfy`, `ProxyMachine.dfy`: the state of a connection as a value, the
  events of the I/O service, and one function per handler. A `fault` flag is set where
  the program would violate an assertion, look into an empty optional, or run a
  handler in a state it has no branch for.
- `ProxyConnection.dfy`: the connection as the program has it, an object with four
  fixed buffers whose methods change its fields in place; each is proved to do what
  the function of the same handler says.
- `ProxyInvariants.dfy`: the states, the operations outstanding in each, and the timer.
- `ProxyStreams.dfy`, `ProxyConservation.dfy`: a connection with the bytes its sockets
  carried; exact streams while it lives, conservation always.
- `ProxyRouting.dfy`: where the bytes of a request may go, and retries.
- `ProxyFraming.dfy`, `ProxyExchange.dfy`: where messages end, and what an exchange
  comes to.
- `HeadSegmentation.dfy`: gathering heads from reads of any size.
- `AnswerPages.dfy`: the proxy's own answers as messages.
- `KeepAlive.dfy`, `ErrorAnswers.dfy`: who is kept after an exchange, and what a client
  is told when it fails.
- `ProxySession.dfy`: requests on one connection do not disturb each other.
- `ProxyRuns.dfy`: runs from the start, and the main results.
- `ProxyService.dfy`: the quickest exchange, and when a response is forwarded.
- `ProxyReaching.dfy`: reuse of the origin connection, and endpoints tried in order.
- `ProxyProgress.dfy`, `ProxyTurns.dfy`: that every exchange ends, and answered; and so
  any number of them in turn.
- `ProxyUploads.dfy`: how uploads are counted, and the runs that go wrong.

Check it with `dafny verify dfyconfig.toml`.

## How the model reads the program

- One step is one completion handler, the expiry of the timer, or the timeout handler;
  the strand runs them one at a time. The environment chooses read sizes from 1 to
  2048, partial write sizes, failures, resolver answers and when the timer fires.
  Completions of one kind of operation arrive in order.
- Cancelling the timer finds a wait or does not: a wait that has fired but whose
  handler has not run yet is no longer found, so the handler that comes first does
  nothing.
- A write names the buffer it points into; its bytes are read from that buffer when the
  write completes, so overwriting a buffer under a pending write would show.
- A write to the origin remembers the peer its socket had, or that it was closed; on a
  closed socket it never succeeds. A socket counts as open from the start of a connect.
- A resolver that succeeds returns at least one endpoint; the program reads the first
  without a test.
- `return nullptr` from a function that returns an optional is the empty optional, a
  moved-from string is empty, assignment through a back inserter appends, and
  `multimap::find` gives the first equivalent entry.
- Two byte counters are 64 bits wide, chunk sizes and status codes 32, ports 16; all
  wrap. `std::stoul` and `std::stoull` are modelled with their leniencies, both 64
  bits wide.
- Handshake and encryption are commented out in the program, and so are they here.

## What the results assume

The chunked-upload branch of the program looks into an optional it has just emptied and
starts no further operation. There is no behaviour to specify, so results over runs ask
that no read completes the head of such an upload (`NoChunkedUpload`).
`ProxyInvariants.RunFaultIff` proves that this is exactly when a run goes wrong, and
`ProxyUploads.ChunkedPostFaults` gives a request that does it.

That no more is read than a declared length asks for needs a length that leaves room for
one more read below 2^64 (`Countable`). `ProxyUploads.NoWrapIffCountable` proves that to
be the exact condition under which no run miscounts a read of such a body, and
`ProxyUploads.UploadThatWraps` gives a run that does. That no less is read needs no
condition.

That exchanges end (`ProxyProgress.ExchangeEnds`) is proved for every environment whose
events are `Cooperative`: the client sends a whole head and the body it declares, not in
chunks, the origin a whole head and a body as it declares it, then closes, both with
lengths that are `Countable`; both take what they are sent; names resolve; of the
endpoints found any but the last may fail; a connection that is used again may turn out
closed. `ProxyProgress.EnvironmentExists` shows that there are such environments.

Where the code departs from the standard, the code is followed: CR is accepted before
any bytes but LF at the end of a field section; a value that is empty before a fold
keeps its leading white space; trailers after a chunked body are refused; chunk sizes
count modulo 2^32; bytes that come with the head of a CONNECT are not relayed; bytes
beyond the body of a request are forwarded with it.

## Model

| member | source | states |
|---|---|---|
| `ProxyRuns.StreamsAreConserved` | src/http_proxy_server_connection.cpp:148-257 | After every run, whatever the read sizes, partial writes, failures and timeouts: the origin has a prefix of the rewritten request (rewritten head, then everything after the head in arrival order), the client a prefix of the rewritten response or of the proxy's own answer, and in a tunnel each side a prefix of what the other sent since the tunnel began |
| `ProxyRuns.RequestsAreRouted` | src/http_proxy_server_connection.cpp:93-146 | Over a whole connection, bytes of a request are only taken by sockets whose peer a resolution of that request's host and port returned, on both reuse paths; a CONNECT is acknowledged and relayed only over a socket connected for it |
| `ProxyRuns.RetriesAtMostOnce` | src/http_proxy_server_connection.cpp:987-992 | In every run a request is taken to a new connection at most once |
| `ProxyRuns.RetrySendsTheSame` | src/http_proxy_server_connection.cpp:987-992 | The retry branch runs only when the abandoned socket took no byte, starts a fresh resolution with no open socket, and the bytes to send are those of the first attempt |
| `ProxyRuns.OneAnswerEach` | src/http_proxy_server_connection.cpp:266-344 | In every run each request gets at most one response head; once it is a page of the proxy's own, the client has been sent bytes of that page and nothing of an origin response |
| `ProxyRuns.AfterPageOnlyCloses` | src/http_proxy_server_connection.cpp:932-943 | From the moment a page is being reported, every further run reports the same page and starts nothing else |
| `ProxyRuns.OnlyAdmittedRequestsPass` | src/http_proxy_server_connection.cpp:600-667 | In every run, a live connection that resolves, connects, sends to or reads from an origin serves a request of a served method, version and scheme, with the credentials asked for |
| `ProxyRuns.ForwardedChunksAreViable` | src/http_proxy_server_connection.cpp:879-887 | In every run, live or ended, what was forwarded of a chunked response's body starts some valid chunked body, also when the origin then sends something else |
| `ProxyRuns.UploadsAreWhole` | src/http_proxy_server_connection.cpp:953-976 | In every run, when the response is awaited the declared length of the request body has been written upstream, for every length; and if the length leaves room for one more read, less than one read more than that, unless it all came with the head |
| `ProxyRuns.ResponsesReadNoFurther` | src/http_proxy_server_connection.cpp:903-931 | In every run, while content of a response is awaited some is missing: the response is not one to a HEAD nor a 204 or 304, has no length of 0, is short of its length, and is no whole chunked body |
| `ProxyRuns.StepKeepsWorld` | src/http_proxy_server_connection.cpp:50-257 | Each step keeps streams, conservation, routing, framing, viability and the retry bound together |
| `ProxyRuns.RunKeepsWorld` | src/http_proxy_server_connection.cpp:50-257 | Every run keeps them, and the world with its history follows the connection itself |
| `ProxyRuns.OutcomeIsGood` | src/http_proxy_server_connection.cpp:42-48 | The same, from the start of any new connection, whatever its uninitialised fields held |
| `ProxyTurns.EveryRequestIsAnswered` | src/http_proxy_server_connection.cpp:42-1004 | On a new connection any list of well-made requests and responses that keep the client is answered in turn, in one run: each whole request at its origin and each whole response at the client before the next request is read, whatever the sizes of reads and writes, the endpoints that fail before the last and the fate of the origin connection in between |
| `ProxyTurns.EndTurnsOver` | src/http_proxy_server_connection.cpp:896-925 | What ends such an exchange is the last byte of its response, and it leaves the client connection waiting for the next request |
| `ProxyReaching.EndpointsTriedInOrder` | src/http_proxy_server_connection.cpp:366-416 | The endpoints found are tried in their order and none is left out: after n failures the connect pending and the socket are of endpoint n, which serves the request if it succeeds; after all have failed, and not before, the client is told 502 |
| `ProxyReaching.NextRequestReuses` | src/http_proxy_server_connection.cpp:93-107 | After an exchange whose response keeps the origin, the next request for the same host and port is at the same endpoint with two events, its head read and what is written taken; nothing is resolved or connected, and a retry is open until the first byte is taken |
| `ProxyReaching.RequestReusesIff` | src/http_proxy_server_connection.cpp:93-146 | Whatever pieces its head comes in, a request is written at once on the open socket exactly if that was opened for its host and port and it is no CONNECT; otherwise exactly one resolution of its name is started |
| `ProxyReaching.ResolvedReusesIff` | src/http_proxy_server_connection.cpp:366-383 | After a resolution no connect is started if the endpoint of the open socket comes first; if it comes later the socket is closed and a retry left open; else the first endpoint is connected to |
| `ProxyReaching.SameNameReuses` | src/http_proxy_server_connection.cpp:93-107 | The same after any run that leaves a socket open under the name the next request asks for |
| `ProxyReaching.ExchangeLeaves` | src/http_proxy_server_connection.cpp:903-931 | An exchange that is over leaves the client awaited or closed by the fields of its request, and the origin open or closed by those of its response, under the name the request asked for |
| `KeepAlive.ForwardedStays` | src/http_proxy_server_connection.cpp:650-688 | Whether the client of a forwarded request is kept: Proxy-Connection decides if present, else Connection; HTTP/1.1 is kept unless that field says close, in any case of letters; HTTP/1.0 only if it says keep-alive |
| `KeepAlive.AnswerStays` | src/http_proxy_server_connection.cpp:782-819 | Whether the origin of a forwarded response is kept: as Connection says, which can say close or keep-alive only, else by the version |
| `ErrorAnswers.RefusedRequest` | src/http_proxy_server_connection.cpp:600-735 | What a request that is not let through is told, by its method, version, credentials, scheme, length and encoding, in this order: status, words and message |
| `ErrorAnswers.UnreadRequest` | src/http_proxy_server_connection.cpp:576-593 | And one whose head reaches 10240 bytes without end, or does not parse |
| `ErrorAnswers.RefusedResponse` | src/http_proxy_server_connection.cpp:776-854 | What the client is told when its response is refused, by version, status, Connection, length, encoding and first chunks |
| `ErrorAnswers.UnreadResponse` | src/http_proxy_server_connection.cpp:756-775 | And when the head of the response is too long or does not parse |
| `ErrorAnswers.FailureAnswered` | src/http_proxy_server_connection.cpp:979-1004 | What a failed operation leads to: 504 if no name is found, 502 if the last endpoint refuses, one new resolution if a socket used again has closed, and otherwise both connections closed and nothing started |
| `ErrorAnswers.PageTells` | src/http_proxy_server_connection.cpp:266-318 | Every error page shows its status, words and message, except the message in answer to a HEAD |
| `ProxyProgress.ExchangeEnds` | src/http_proxy_server_connection.cpp:42-1004 | Whatever the sizes of reads and writes, however many endpoints fail before the last, and whether or not a connection used again turns out closed: if client, resolver and origin do their part, then after finitely many events, a run of the connection, one comes that ends the exchange with the whole request at the origin and the whole response at the client, with the acknowledgement of a CONNECT, or with a whole page; never with a page if both heads are well made |
| `ProxyProgress.FirstExchangeEnds` | src/http_proxy_server_connection.cpp:42-48 | So the first request on any new connection is answered, in a run from its start |
| `ProxyProgress.ProceedsWell` | src/http_proxy_server_connection.cpp:148-257 | Every event that does its part keeps the exchange on course and brings its end nearer, in the order of: chances of a retry, stage, bytes unread, rest of the operation at hand |
| `ProxyProgress.CanProceed` | src/http_proxy_server_connection.cpp:50-257 | At every moment of an exchange some such event can happen: nobody waits in vain |
| `ProxyProgress.EndsAnswered` | src/http_proxy_server_connection.cpp:896-946 | An exchange that ends is answered: nothing of the declared request or response is missing on either socket |
| `ProxyProgress.NextBegins` | src/http_proxy_server_connection.cpp:912-921 | An exchange that ends in a turnover leaves the connection, with its invariants, at the start of the next |
| `ProxyProgress.PlayBegins` | src/http_proxy_server_connection.cpp:50-69 | A connection that expects a request is at the start of an exchange, whatever is to be sent |
| `ProxyService.ExchangeCompletes` | src/http_proxy_server_connection.cpp:42-946 | Six events are enough for a request and a response of known length or in chunks that come whole in one read each, with or without a body: after four the origin has the whole rewritten request, with the sixth the client has the whole rewritten response, and then the next request is expected, with the origin connection kept exactly if the response allows |
| `ProxyService.RequestGetsThrough` | src/http_proxy_server_connection.cpp:93-171 | In four events the rewritten head and all that came with it is at an endpoint of its host; the response is awaited exactly if that was the whole request, and else the rest of its body |
| `ProxyService.AnswerGetsBack` | src/http_proxy_server_connection.cpp:173-257 | In two more the whole rewritten response is at the client |
| `ProxyService.ForwardedIffMayForward` | src/http_proxy_server_connection.cpp:776-854 | A response goes on exactly if version, status, Connection field, framing and the first chunks allow it |
| `ProxyInvariants.SafeRuns` | src/http_proxy_server_connection.cpp:346-364 | Over every run without a chunked upload no assertion fails, no empty optional is read, no handler runs in a state without a branch, and a live connection has exactly one timer wait and the operations its state calls for |
| `ProxyInvariants.RunFaultIff` | src/http_proxy_server_connection.cpp:710-717 | A run goes wrong exactly when one of its reads completes the head of a chunked upload |
| `ProxyInvariants.FaultIffChunkedUpload` | src/http_proxy_server_connection.cpp:697-717 | The same for one step, with the condition readable off the bytes received: a POST or PUT of a served version and scheme, with the credentials asked for, without Content-Length and with the Transfer-Encoding chunked in any case |
| `ProxyInvariants.ChunkedUploadIff` | src/http_proxy_server_connection.cpp:600-717 | The judgement of a request ends in that branch exactly under these conditions on its head |
| `ProxyUploads.ChunkedUploadFaults` | src/http_proxy_server_connection.cpp:710-717 | On any new connection the read that brings the head of any such upload goes wrong |
| `ProxyUploads.ChunkedPostFaults` | src/http_proxy_server_connection.cpp:710-717 | A concrete one: a POST whose only field says chunked, to a proxy without authentication |
| `ProxyInvariants.StepKeepsInv` | src/http_proxy_server_connection.cpp:346-364 | Every step but that one keeps the invariant of states, operations and timer |
| `ProxyInvariants.RunKeepsInv` | src/http_proxy_server_connection.cpp:346-364 | Every run without a chunked upload keeps it |
| `ProxyInvariants.NothingAfterTheEnd` | src/http_proxy_server_connection.cpp:1006-1017 | Once the timer no longer waits, whatever completes starts no operation and no timer, changes no buffer a pending write points at, and the timeout handler leaves both sockets closed |
| `ProxyInvariants.TunnelGood` | src/http_proxy_server_connection.cpp:749-751 | In the tunnel the two directions interleave in any order and share the one timer without the assertion of set_timer failing |
| `ProxyInvariants.RunKeepsFault` | src/http_proxy_server_connection.cpp:346-364 | A violated assertion is never forgotten, so a run that ends well had none |
| `ProxySession.RequestsAreIndependent` | src/http_proxy_server_connection.cpp:904-925 | Two connections that expect a request, with the same origin connection, can do the same things forever: same operations, same bytes on both sockets, whatever the counters, flags, printed heads and buffers left from earlier requests |
| `ProxySession.RunKeepsTwins` | src/http_proxy_server_connection.cpp:904-925 | The same for any two connections told apart only by what their state no longer reads |
| `ProxySession.StepAlike` | src/http_proxy_server_connection.cpp:656-692 | One event takes connections that are alike to connections that are alike, faulty or not, and carries the same bytes |
| `ProxySession.TurnoverExpects` | src/http_proxy_server_connection.cpp:912-921 | A turnover leaves a connection that expects a request and differs from others that do at most in its origin connection |
| `ProxySession.StartedExpects` | src/http_proxy_server_connection.cpp:42-48 | So does the start of a new connection |
| `ProxyStreams.StepKeepsStreams` | src/http_proxy_server_connection.cpp:148-257 | For a live connection, what is written and what is being written is together exactly the rewritten message so far; every step keeps that |
| `ProxyStreams.UpImageGrows` | src/http_proxy_server_connection.cpp:148-170 | More bytes from the client add the same bytes to what the origin should have, and leave the rewritten head |
| `ProxyStreams.DownImageGrows` | src/http_proxy_server_connection.cpp:173-210 | The same for a response |
| `ProxyStreams.RetryIsBefore` | src/http_proxy_server_connection.cpp:987-992 | Where the reconnect flag is still set, nothing of the request has left |
| `ProxyConservation.StepConserves` | src/http_proxy_server_connection.cpp:212-257 | Every step, also one that ends the connection or comes after its end, keeps sent plus pending a prefix of what is to be sent |
| `ProxyConservation.PendingWritesUntouched` | src/http_proxy_server_connection.cpp:574-575 | No step changes bytes of a buffer that a write still in flight points at |
| `ProxyConservation.StepLivesOrLoses` | src/http_proxy_server_connection.cpp:979-1017 | A step either leaves the connection live or only takes the completed operation off the books |
| `ProxyConservation.PageStays` | src/http_proxy_server_connection.cpp:935-943 | While a page is reported nothing but that write is in flight, and when its last byte is written both sockets are closed |
| `ProxyRouting.StepKeepsRouting` | src/http_proxy_server_connection.cpp:366-383 | Every step keeps the open origin socket on an endpoint found for its remembered name, and the request's socket on one found for the request |
| `ProxyRouting.AsyncConnectArrives` | src/http_proxy_server_connection.cpp:93-146 | Reusing the open socket by name leads where the request asks to go; a CONNECT closes it first |
| `ProxyRouting.OnResolvedArrives` | src/http_proxy_server_connection.cpp:366-416 | Reusing it by endpoint does as well; on a first mismatch it is closed, and a write to it then goes nowhere |
| `ProxyFraming.PassedIffMayPass` | src/http_proxy_server_connection.cpp:600-735 | A parsed request goes on exactly if method, version, credentials, scheme and length allow it, and is then counted from the bytes that came with its head |
| `ProxyFraming.AdmittedIffLastPassword` | src/http_proxy_server_connection.cpp:626-638 | With authentication on, a request with Basic credentials is admitted exactly if they carry the password last set for that name |
| `ProxyFraming.AdmittedIff` | src/http_proxy_server_connection.cpp:626-638 | With authentication on, a request is admitted exactly if it has a Proxy-Authorization field and that carries a name with the password the table has for it; with authentication off, always |
| `ProxyFraming.StepKeepsFraming` | src/http_proxy_server_connection.cpp:690-748 | Every step keeps the records of lengths, counters and chunk checkers equal to what the bytes received say |
| `ProxyFraming.JudgedResponseMeasures` | src/http_proxy_server_connection.cpp:776-854 | A response that is forwarded has a record that says how its body ends: a length counted so far, a chunk checker fed so far, or the close of the connection |
| `ProxyFraming.TurnsInTime` | src/http_proxy_server_connection.cpp:953-963 | When a write of the request ends, the counter tells whether its body is all there |
| `ProxyFraming.CountsInTime` | src/http_proxy_server_connection.cpp:736-738 | Content read while some was missing passes the length by less than one read |
| `ProxyExchange.ChunkedTurnoverExact` | src/http_proxy_server_connection.cpp:903-931 | When all that has come of a chunked response is written, the exchange is over exactly if the forwarded body is one whole chunked body; it is then turned over, or the client closed, as the request asked |
| `ProxyExchange.FixedTurnoverExact` | src/http_proxy_server_connection.cpp:903-931 | For a response with a length, be it 0, the exchange is over exactly if the 64-bit counter has reached it: never before that much was forwarded after the head, and exactly then if the length leaves room for one more read |
| `ProxyExchange.NoContentEndsWithHead` | src/http_proxy_server_connection.cpp:821-827 | An answer to a HEAD and a 204 or 304 are over with their head, whatever has come behind it; the client is read next or closed, as the request asked |
| `ProxyExchange.AwaitedContentIsMissing` | src/http_proxy_server_connection.cpp:903-931 | While content of a response is awaited some is missing, so a response without content is never read on |
| `ProxyExchange.UntilCloseNeverDone` | src/http_proxy_server_connection.cpp:849-852 | A response framed by the close of its connection is read on after every write |
| `ProxyExchange.ClientReadsSameMessage` | src/http_proxy_server_connection.cpp:173-194 | A client that parses what is forwarded finds the origin's head, but for white space before a value, and the body as sent; the head is identical exactly if no value starts with white space |
| `ProxyExchange.OriginReadsSameMessage` | src/http_proxy_server_connection.cpp:148-170 | An origin that parses what is sent finds the same method, path and version, the fields in order less the two for the proxy, and the body as sent |
| `ProxyExchange.UploadIsWhole` | src/http_proxy_server_connection.cpp:953-976 | The upload result in any world that keeps the invariants, the lower bound for every length |
| `ProxyExchange.ContentReadsProgress` | src/http_proxy_server_connection.cpp:736-748 | While content is awaited some is missing, the counter is its true length, and each read brings the end nearer |
| `ProxyUploads.NoWrapIffCountable` | src/http_proxy_server_connection.cpp:736-738 | For a length of which some run of a new connection awaits an upload, no run of that connection miscounts a content read of such an upload exactly if the length leaves room for one more read below 2^64 |
| `ProxyUploads.AwaitedUpTo` | src/http_proxy_server_connection.cpp:736-748 | A run that awaits content of an upload extends to one that awaits it with any count below its length |
| `ProxyUploads.UploadIsAwaited` | src/http_proxy_server_connection.cpp:93-171 | Four events from the start of a new connection, content is awaited of any upload that may pass and whose head comes in one read without all of its body |
| `ProxyUploads.LongPostIsAwaited` | src/http_proxy_server_connection.cpp:697-709 | Without authentication there is such an upload of every length from 1 to 2^64-1 |
| `ProxyUploads.UploadThatWraps` | src/http_proxy_server_connection.cpp:736-738 | A run that goes wrong: of 2^64-1 bytes all but one are read and forwarded, a read of 2048 takes the counter to 2046, and with the whole body at the origin the connection awaits more of it |
| `ProxyUploads.WrappedUploadReadsOn` | src/http_proxy_server_connection.cpp:953-963 | In general a read that wraps the counter completes the body, and yet after it is written the connection awaits more content |
| `ProxyUploads.CountsAllIff` | src/http_proxy_server_connection.cpp:736-738 | A connection that awaits content counts every read it can make in full exactly if its counter has room for the longest |
| `ProxyExchange.AcceptedIsViable` | src/http_chunk_checker.hpp:53-132 | The checker has not failed exactly if the bytes so far start some chunked body |
| `HeadSegmentation.RequestHeadOfAnyCut` | src/http_proxy_server_connection.cpp:576-593 | However a request head that ends within 10240 bytes is cut into reads, the connection gathers until the read that completes it and then hands on that same head, parsed, judged and obeyed or refused as malformed; never as too long |
| `HeadSegmentation.LateRequestHeadIsRefused` | src/http_proxy_server_connection.cpp:580-586 | A request head that ends later is, under some cut, answered with the page that says so |
| `HeadSegmentation.ResponseHeadOfAnyCut` | src/http_proxy_server_connection.cpp:756-775 | However a response head that ends within 10240 bytes is cut into reads, the connection hands on that same head |
| `HeadSegmentation.LateResponseHeadIsRefused` | src/http_proxy_server_connection.cpp:760-766 | A response head that ends later is, under some cut, refused as too long |
| `HeadSegmentation.CutNeverMattersIff` | src/http_proxy_server_connection.cpp:576-590 | Gathering under a limit: the head is found whatever the cut exactly if it ends within the limit; whenever it is found it is the same |
| `HeadSegmentation.WaitingIsShort` | src/http_proxy_server_connection.cpp:580-586 | While the head is gathered nothing is missed, fewer than 10240 bytes are held, and there have been no more reads than bytes |
| `HeadSegmentation.CompleteIsPrefix` | src/http_proxy_server_connection.cpp:589 | A completed head is the head of all that is sent, and the rest a prefix of what follows it |
| `HeadSegmentation.RequestReadGathers` | src/http_proxy_server_connection.cpp:576-593 | What one read does to a connection that gathers a request head: it holds the bytes so far and nothing else changes; or the page for a head that is too long; or the head is parsed, judged and obeyed, with fewer than 10240 + 2048 bytes held |
| `HeadSegmentation.ResponseReadGathers` | src/http_proxy_server_connection.cpp:756-775 | The same for a response head: waits, refuses or hands it on |
| `HeadSegmentation.RequestHeadGathers` | src/http_proxy_server_connection.cpp:576-588 | Any cut of the same unfinished bytes leaves the connection gathering exactly these bytes |
| `HeadSegmentation.ResponseHeadGathers` | src/http_proxy_server_connection.cpp:756-768 | The same for a response |
| `AnswerPages.ErrorPagesAreMessages` | src/http_proxy_server_connection.cpp:266-318 | Every error page is one whole message: it parses, has a status from 400 to 599, and as much content as its Content-Length says, or none in answer to a HEAD |
| `AnswerPages.AuthPageIsMessage` | src/http_proxy_server_connection.cpp:320-344 | The 407 page is one whole message as well, with content of the length it announces, whatever it answers |
| `AnswerPages.PageToHeadIsBareIff` | src/http_proxy_server_connection.cpp:600-667 | The page that refuses a HEAD has content exactly if the version is served and the credentials are not good: then it is the 407 page, whole |
| `AnswerPages.EstablishedIsHead` | src/http_proxy_server_connection.cpp:439 | The acknowledgement of a CONNECT is the head of a 200 Connection Established with Connection: Close, and nothing after it |
| `AnswerPages.PageFramesItself` | src/http_proxy_server_connection.cpp:266-318 | The same for any status, description and message on one line |
| `AnswerPages.WrittenReadsBack` | src/http_proxy_server_connection.cpp:266-318 | Fields written in any order read back as their stable sort, and the head ends where its writer ended it |
| `ChunkGrammar.CompleteIffBody` | src/http_chunk_checker.hpp:47-133 | The checker is complete exactly if the whole input is one body of the grammar: chunks with hexadecimal size, nonzero modulo 2^32, extension, data; a last size congruent to 0; no trailers |
| `ChunkGrammar.NoBodyExtendsAnother` | src/http_chunk_checker.hpp:111-124 | No proper prefix of a body is a body |
| `ChunkGrammar.BodyReadsOneWay` | src/http_chunk_checker.hpp:53-132 | A body decomposes into chunks in one way |
| `ChunkGrammar.AcceptedIffViable` | src/http_chunk_checker.hpp:53-132 | The checker has not failed exactly if the input can be extended to a body, and a completion is constructed |
| `ChunkGrammar.CompletionCompletes` | src/http_chunk_checker.hpp:93-110 | From every state that has not failed, the missing data and the closing lines lead to completion |
| `ChunkChecker.HexDigitIs` | src/http_chunk_checker.hpp:55-65 | The digits of a chunk size are those of 0123456789abcdef, capitals as well, each with its index for value |
| `ChunkChecker.XDigitIs` | src/http_chunk_checker.hpp:55-65 | And no other character is one |
| `ChunkChecker.FeedConcat` | src/http_chunk_checker.hpp:47-53 | Slicing never changes the verdict |
| `ChunkChecker.FailIsForever` | src/http_chunk_checker.hpp:129-130 | A failed check stays failed |
| `ChunkChecker.HttpChunkChecker.Check` | src/http_chunk_checker.hpp:47-133 | The loop over a slice takes the three fields where the byte-by-byte function says, and returns whether the check has not failed |
| `ChunkChecker.HttpChunkChecker.IsComplete` | src/http_chunk_checker.hpp:38-40 | Tells whether the body is complete |
| `ChunkChecker.HttpChunkChecker.IsFail` | src/http_chunk_checker.hpp:42-44 | Tells whether the check has failed |
| `Base64.Encode` | src/base64.hpp:31-60 | The loop computes the encoding, four characters a group with padding at the end |
| `Base64.Decode` | src/base64.hpp:65-101 | The loop computes the decoding, or fails where the program throws |
| `Base64.DecodeEncode` | src/base64.hpp:31-101 | Decoding an encoding gives the bytes back, for all bytes |
| `Base64.DecodableIff` | src/base64.hpp:65-101 | Decoding succeeds exactly on texts of whole groups over the alphabet with at most two padding characters, at the very end |
| `Base64.EncodeDecodeIff` | src/base64.hpp:82-93 | Encoding a decoding gives the text back exactly if its unused trailing bits are zero |
| `Base64.TablesInverse` | src/base64.cpp:13-40 | The two tables are inverse of each other |
| `Base64.TableIsAlphabet` | src/base64.cpp:13-24 | The encoding table is the alphabet of section 4 of RFC 4648 |
| `Base64.QuadCarries` | src/base64.hpp:31-60 | Four characters carry the 24 bits of three bytes, most significant first |
| `Base64.ShortCarries` | src/base64.hpp:31-60 | One or two bytes at the end are carried as if zeros followed, and padding stands for what only zeros need |
| `Authentication.AcceptedIffLastPassword` | src/authentication.cpp:20-60 | After any history of added and removed users, Basic credentials are accepted exactly if they carry the password last set for that name and not removed since |
| `Authentication.AcceptedIff` | src/authentication.cpp:20-50 | Any field value is accepted exactly if it is Basic, a space and the coding of a name without a colon, a colon, and the password the table has for that name |
| `Authentication.ColonSplitsName` | src/authentication.cpp:29-34 | A name with a colon in it cannot log in under that name: the rest counts as password |
| `Authentication.TableIsLastPassword` | src/authentication.cpp:52-60 | The map of users holds exactly the last surviving passwords |
| `Authentication.AuthenticationTable.AuthBasic` | src/authentication.cpp:20-40 | The verdict on credentials: malformed, incorrect or accepted |
| `Authentication.AuthenticationTable.Auth` | src/authentication.cpp:42-50 | The verdict on a field value, which must begin with the scheme name |
| `Authentication.AuthenticationTable.AddUser` | src/authentication.cpp:52-55 | Sets one password and leaves the others |
| `Authentication.AuthenticationTable.RemoveAllUsers` | src/authentication.cpp:57-60 | Leaves no user |
| `HeaderMap.ContainerIsStableSort` | src/http_header_parser.hpp:20-27 | The container after inserting a list of fields is its stable sort by case-insensitive name, and nothing else is |
| `HeaderMap.LookupIsFirst` | src/http_header_parser.cpp:49-56 | A lookup gives the first field of that name, or none if there is none |
| `HeaderMap.LookupFinds` | src/http_header_parser.cpp:49-56 | It is the first whose name is equal but for the case of letters |
| `HeaderMap.EraseSelect` | src/http_header_parser.cpp:58-61 | Erasing a name takes all its fields, and leaves the others with their order |
| `HeaderMap.EraseLeavesOthers` | src/http_header_parser.cpp:58-61 | What is left is, in order, the fields whose names are not equal but for the case of letters |
| `HeaderMap.EraseTwice` | src/http_header_parser.cpp:58-61 | Erasing twice is erasing once |
| `HeaderMap.EraseCommutes` | src/http_header_parser.cpp:58-61 | The order of two erasures does not matter |
| `HeaderMap.LessTrichotomy` | src/http_header_parser.hpp:20-26 | Names are ordered, and are equal exactly if they are equal but for case |
| `HeaderMap.NotLessTransitive` | src/http_header_parser.hpp:20-26 | The order is a strict weak order |
| `HeaderMap.SameNameIff` | src/http_header_parser.hpp:20-26 | Names are the same exactly if they are equal but for the case of the 26 letters |
| `HeaderMap.LessIff` | src/http_header_parser.hpp:20-26 | The order of names is that of a dictionary, with capitals taken as small letters |
| `HeaderMap.HeadersContainer.InsertField` | src/http_header_parser.cpp:205 | Puts a field after the last one of its name and keeps the order |
| `HeaderMap.HeadersContainer.EraseHeader` | src/http_header_parser.cpp:58-61 | Removes every field of a name and counts them |
| `HeaderMap.HeadersContainer.GetHeaderValue` | src/http_header_parser.cpp:49-56 | Finds the first field of a name |
| `HeaderFields.ParseHeaders` | src/http_header_parser.cpp:106-231 | The loop over the text computes the state machine's verdict and container |
| `HeaderFields.RunConcat` | src/http_header_parser.cpp:143-226 | Reading text in two parts is reading it whole |
| `HeaderFields.TokenChars` | src/http_header_parser.cpp:110-126 | The characters of a field name are the token characters of section 3.2.6 of RFC 7230 |
| `HeaderGrammar.ParsedIff` | src/http_header_parser.cpp:140-230 | Parsing succeeds exactly if the text begins with fields (token, colon, value with folds), CR, anything but LF, LF; the container is the stable sort of the unfolded and trimmed fields |
| `HeaderGrammar.SaidIsParsed` | src/http_header_parser.cpp:140-230 | Text that says fields parses to their container |
| `HeaderGrammar.ParsedIsSaid` | src/http_header_parser.cpp:140-230 | Text that parses says fields |
| `HeaderGrammar.ValueIs` | src/http_header_parser.cpp:168-205 | The value of a field is its lines put together, without spaces and tabs at the front of the first and the end of the last |
| `RequestUri.SplitAbsoluteIsRegex` | src/http_header_parser.cpp:262-277 | The deterministic split of an absolute target is what the lazy pattern finds first in backtracking order |
| `RequestUri.SplitAuthorityIsRegex` | src/http_header_parser.cpp:248-253 | The split of a CONNECT target at its last colon is what its pattern finds |
| `RequestUri.RenderedAbsoluteSplits` | src/http_header_parser.cpp:262-277 | A rendered scheme, host, port or none, and path split into the same parts, exactly if a port is written or the host does not itself end in a colon and digits |
| `HeaderParser.ParseRequestHeader` | src/http_header_parser.cpp:233-300 | The scanning loops compute the request head, or none where the program returns none |
| `HeaderParser.ParseResponseHeader` | src/http_header_parser.cpp:302-343 | The same for a response head |
| `HeaderParser.ParseRequestLine` | src/http_header_parser.cpp:235-291 | The first line of a request |
| `HeaderParser.ParseTarget` | src/http_header_parser.cpp:246-278 | Scheme, host, port modulo 2^16 and path of a target, or the failure of either pattern or of the number |
| `HeaderParser.ParseStatusLine` | src/http_header_parser.cpp:304-334 | The first line of a response |
| `HeadLines.RequestLineIff` | src/http_header_parser.cpp:235-291 | A first line is read as a request line exactly if it is two words, each ended by a space, HTTP/, a version, CR and LF, character by character |
| `HeadLines.StatusLineIff` | src/http_header_parser.cpp:304-334 | The same for a status line, with its status modulo 2^32 and its optional description |
| `HeadLines.AbsoluteTargetIs` | src/http_header_parser.cpp:262-278 | A target in absolute form asks for the parts its pattern finds, its port modulo 2^16, or port 80 if it names none |
| `HeadLines.AuthorityTargetIs` | src/http_header_parser.cpp:246-260 | A CONNECT asks for host and port modulo 2^16 |
| `HeaderParser.ParseStatus` | src/http_header_parser.cpp:311-320 | The status code modulo 2^32 |
| `HeaderParser.ParseDescription` | src/http_header_parser.cpp:322-332 | The description, if there is one, and the end of the line |
| `HeaderParser.SkipUntil` | src/http_header_parser.cpp:237-238 | A scanning loop stops at the first stop character |
| `Text.Stoull` | src/http_header_parser.cpp:255 | The number a text begins with, in the leniency of the C library, if it fits 64 bits |
| `Text.StoullOfDigits` | src/http_header_parser.cpp:316 | On plain digits it is their decimal value |
| `Text.StoullReads` | src/http_header_parser.cpp:316 | White space, a sign or none, digits and then no digit are read as the value of the digits, negated modulo 2^64 after a minus, if it fits 64 bits |
| `Text.StoullSaid` | src/http_header_parser.cpp:316 | And only such texts are read as a number |
| `Text.LowerSameIff` | src/http_proxy_server_connection.cpp:651-655 | Folding case makes texts equal exactly if they are equal but for the case of the 26 letters |
| `Text.WrapsModulo` | src/http_chunk_checker.hpp:65 | The counters drop multiples of 2^16, 2^32 and 2^64 |
| `Text.FindHeadEnd` | src/http_proxy_server_connection.cpp:579 | The first CRLF CRLF of a text, if there is one |
| `Text.HeadEndOfPrefix` | src/http_proxy_server_connection.cpp:579 | Whether and where the blank line is found does not depend on what follows it |
| `HeadPrinter.PrintRequest` | src/http_proxy_server_connection.cpp:151-168 | The loop prints the request head in origin form |
| `HeadPrinter.PrintResponse` | src/http_proxy_server_connection.cpp:177-193 | The loop prints the response head, without a space when there is no description |
| `HeadPrinter.PrintFields` | src/http_proxy_server_connection.cpp:161-166 | The loop over the container prints its fields in order |
| `HeadPrinter.ParsedIsClean` | src/http_header_parser.cpp:196-205 | What the parser returns is sorted, with token names and values without CR or trailing white space |
| `HeadPrinter.FieldsReadBack` | src/http_proxy_server_connection.cpp:186-192 | Printed fields read back as themselves, but for white space at the front of values |
| `HeadPrinter.PrintedHeadEnd` | src/http_proxy_server_connection.cpp:176-193 | The first blank line of a printed head is its own end |
| `HeadPrinter.LeftTrimmedSameIff` | src/http_header_parser.cpp:168-179 | White space is lost from no value exactly if none starts with it |
| `HeadRoundTrips.ResponseReadsBack` | src/http_proxy_server_connection.cpp:175-194 | Printing a response head and parsing it with any body behind gives version, code, description and container back, and the same body |
| `HeadRoundTrips.ResponseFixpointIff` | src/http_header_parser.cpp:302-343 | For a head the parser returned, print and parse is the identity exactly if no value starts with white space |
| `HeadRoundTrips.FoldAfterEmptyLineKeepsOws` | src/http_header_parser.cpp:172-199 | Of a concrete head, whose field has an empty first line and a fold, the parser keeps the white space before the value, and printing and parsing it again gives another head |
| `HeadRoundTrips.RequestReadsBack` | src/http_proxy_server_connection.cpp:148-168 | The origin-form head reads back with the same words, fields and body |
| `HeadRoundTrips.RewritingPreservesMeaning` | src/http_proxy_server_connection.cpp:148-170 | The rewritten request has the same method, path, version and body, and for every name the same fields in the same order, except that the two for the proxy are gone |
| `HeadRoundTrips.StrippedTwice` | src/http_proxy_server_connection.cpp:158-159 | Stripping the two proxy fields is idempotent |
| `HeadRoundTrips.StrippedSelect` | src/http_proxy_server_connection.cpp:158-159 | It takes these fields, in any case, and nothing else |
| `HeadRoundTrips.ProxyRequestReadsBack` | src/http_header_parser.cpp:233-299 | A request rendered for a proxy from method, scheme, host, port up to 65535 (written, or left out where it is the default), path, version and fields parses to the same parts but for white space before values, so to the same request exactly if no value starts with white space |
| `ProxyConnection.HttpProxyServerConnection.constructor` | src/http_proxy_server_connection.cpp:22-31 | Creates four separate buffers and a connection that has not started |
| `ProxyConnection.HttpProxyServerConnection.Start` | src/http_proxy_server_connection.cpp:42-48 | Starts reading a request head |
| `ProxyConnection.HttpProxyServerConnection.SetTimer` | src/http_proxy_server_connection.cpp:346-357 | Starts a wait; the assertion that none is pending holds |
| `ProxyConnection.HttpProxyServerConnection.CancelTimer` | src/http_proxy_server_connection.cpp:359-364 | Cancels the wait and tells whether there was one; at most one is ever found |
| `ProxyConnection.HttpProxyServerConnection.AsyncReadDataFromProxyClient` | src/http_proxy_server_connection.cpp:50-69 | One timer wait and one read more |
| `ProxyConnection.HttpProxyServerConnection.AsyncReadDataFromOriginServer` | src/http_proxy_server_connection.cpp:71-91 | One read more, with its own wait or sharing that of the other direction |
| `ProxyConnection.HttpProxyServerConnection.AsyncConnectToOriginServer` | src/http_proxy_server_connection.cpp:93-146 | Reuses the open socket of the same name or resolves anew; closes it first for a CONNECT |
| `ProxyConnection.HttpProxyServerConnection.AsyncWriteRequestHeaderToOriginServer` | src/http_proxy_server_connection.cpp:148-171 | Erases the two proxy fields, prints the head, appends what came after it and writes it all |
| `ProxyConnection.HttpProxyServerConnection.AsyncWriteResponseHeaderToProxyClient` | src/http_proxy_server_connection.cpp:173-210 | Prints the head, appends what came after it and writes it all |
| `ProxyConnection.HttpProxyServerConnection.AsyncWriteDataToOriginServer` | src/http_proxy_server_connection.cpp:212-215 | One wait and one write more, on the present socket |
| `ProxyConnection.HttpProxyServerConnection.AsyncWriteDataToProxyClient` | src/http_proxy_server_connection.cpp:236-239 | One wait and one write more |
| `ProxyConnection.HttpProxyServerConnection.StartTunnelTransfer` | src/http_proxy_server_connection.cpp:259-264 | Two reads under one wait |
| `ProxyConnection.HttpProxyServerConnection.ReportErrorPage` | src/http_proxy_server_connection.cpp:266-318 | Builds the page from its words and writes it; no content in answer to a HEAD |
| `ProxyConnection.HttpProxyServerConnection.ReportAuthenticationFailed` | src/http_proxy_server_connection.cpp:320-344 | Writes the 407 page |
| `ProxyConnection.HttpProxyServerConnection.OnResolved` | src/http_proxy_server_connection.cpp:366-416 | The loop over the endpoints reuses, closes or connects as the program does, on any list found |
| `ProxyConnection.HttpProxyServerConnection.OnConnect` | src/http_proxy_server_connection.cpp:419-445 | Acknowledges a CONNECT or sends the request |
| `ProxyConnection.HttpProxyServerConnection.OnRequestHeaderData` | src/http_proxy_server_connection.cpp:576-593 | Gathers, refuses or parses a request head |
| `ProxyConnection.HttpProxyServerConnection.OnRequestHeader` | src/http_proxy_server_connection.cpp:600-668 | Judges method, version, credentials and scheme, in this order |
| `ProxyConnection.HttpProxyServerConnection.FrameRequest` | src/http_proxy_server_connection.cpp:667-696 | Decides whether the client stays and resets the record |
| `ProxyConnection.HttpProxyServerConnection.DecideProxyClientKeepAlive` | src/http_proxy_server_connection.cpp:656-688 | Proxy-Connection decides, then Connection, then the version |
| `ProxyConnection.HttpProxyServerConnection.AuthenticateClient` | src/http_proxy_server_connection.cpp:626-634 | Without a good Proxy-Authorization field there is no admission when authentication is on |
| `ProxyConnection.HttpProxyServerConnection.FrameUpload` | src/http_proxy_server_connection.cpp:697-735 | The length of an upload, or the page that refuses it |
| `ProxyConnection.HttpProxyServerConnection.OnRequestContentData` | src/http_proxy_server_connection.cpp:736-748 | Counts or checks content and writes it |
| `ProxyConnection.HttpProxyServerConnection.OnProxyClientDataArrived` | src/http_proxy_server_connection.cpp:447-752 | Copies the read buffer over the write buffer in place, then acts by state |
| `ProxyConnection.HttpProxyServerConnection.OnResponseHeaderData` | src/http_proxy_server_connection.cpp:756-775 | Gathers, refuses or parses a response head |
| `ProxyConnection.HttpProxyServerConnection.OnResponseHeader` | src/http_proxy_server_connection.cpp:776-819 | Judges version and status and finds out whether the origin stays |
| `ProxyConnection.HttpProxyServerConnection.ReadResponseConnection` | src/http_proxy_server_connection.cpp:782-812 | Resets the record and reads the Connection field; an unknown value is refused |
| `ProxyConnection.HttpProxyServerConnection.FrameResponse` | src/http_proxy_server_connection.cpp:821-854 | No body to a HEAD or with status 204 or 304 |
| `ProxyConnection.HttpProxyServerConnection.FrameResponseContent` | src/http_proxy_server_connection.cpp:829-837 | A stated length, counted from what came with the head |
| `ProxyConnection.HttpProxyServerConnection.FrameEncodedResponse` | src/http_proxy_server_connection.cpp:838-848 | A chunk checker fed with what came with the head, or a refusal of another encoding or of bad chunks |
| `ProxyConnection.HttpProxyServerConnection.FrameResponseByEncoding` | src/http_proxy_server_connection.cpp:838-852 | Framing by the encoding, by the close of the connection, or a refusal if the origin stays |
| `ProxyConnection.HttpProxyServerConnection.OnResponseContentData` | src/http_proxy_server_connection.cpp:875-888 | Counts or checks content, copies the buffer and writes; a failed check ends in silence |
| `ProxyConnection.HttpProxyServerConnection.OnOriginServerDataArrived` | src/http_proxy_server_connection.cpp:754-894 | Acts by state |
| `ProxyConnection.HttpProxyServerConnection.OnResponseDataWritten` | src/http_proxy_server_connection.cpp:903-931 | Turnover, close or more content |
| `ProxyConnection.HttpProxyServerConnection.ForgetExchange` | src/http_proxy_server_connection.cpp:913-920 | What is reset between two requests, and nothing else |
| `ProxyConnection.HttpProxyServerConnection.OnProxyClientDataWritten` | src/http_proxy_server_connection.cpp:896-946 | Acts by state |
| `ProxyConnection.HttpProxyServerConnection.OnRequestDataWritten` | src/http_proxy_server_connection.cpp:953-976 | Reads more content or the response |
| `ProxyConnection.HttpProxyServerConnection.OnOriginServerDataWritten` | src/http_proxy_server_connection.cpp:948-977 | Acts by state |
| `ProxyConnection.HttpProxyServerConnection.OnError` | src/http_proxy_server_connection.cpp:979-1004 | Page, retry or close, by state |
| `ProxyConnection.HttpProxyServerConnection.OnTimeout` | src/http_proxy_server_connection.cpp:1006-1017 | Closes both sockets |
| `ProxyConnection.HttpProxyServerConnection.ProxyClientReadCompletes` | src/http_proxy_server_connection.cpp:56-68 | The read's bytes fill the front of the buffer; the handler runs only if the timer was still waiting |
| `ProxyConnection.HttpProxyServerConnection.OriginServerReadCompletes` | src/http_proxy_server_connection.cpp:78-90 | The same from the origin |
| `ProxyConnection.HttpProxyServerConnection.OriginServerWriteCompletes` | src/http_proxy_server_connection.cpp:217-233 | Clears the reconnect flag and goes on with the rest of a partial write |
| `ProxyConnection.HttpProxyServerConnection.ProxyClientWriteCompletes` | src/http_proxy_server_connection.cpp:241-256 | Goes on with the rest of a partial write |
| `ProxyConnection.HttpProxyServerConnection.ResolveCompletes` | src/http_proxy_server_connection.cpp:133-144 | Hands the endpoints on |
| `ProxyConnection.HttpProxyServerConnection.ConnectCompletes` | src/http_proxy_server_connection.cpp:398-403 | Goes on to serve the request |
| `ProxyConnection.HttpProxyServerConnection.ConnectFails` | src/http_proxy_server_connection.cpp:404-414 | Closes the socket and tries the next endpoint |
| `ProxyConnection.HttpProxyServerConnection.OperationFails` | src/http_proxy_server_connection.cpp:63-65 | Any other failure goes to the error handler |
| `ProxyConnection.HttpProxyServerConnection.TimerFires` | src/http_proxy_server_connection.cpp:346-357 | The wait ends, and the timeout handler runs later |
| `ProxyConnection.HttpProxyServerConnection.Dispatch` | src/http_proxy_server_connection.cpp:50-257 | Each turn of the I/O service does what the value-level step says and keeps the invariant |
| `ProxyConnection.HttpProxyServerConnection.Serve` | src/http_proxy_server_connection.cpp:42-48 | A whole run of turns, served one by one by the object, ends where the value-level run ends |

## Left out

- The chunked-upload branch beyond the fact that it is the one faulty branch.
- The handshake that reads cipher data, and the RSA and AES wrappers: foreign calls, and the program's start skips them.
- Sockets, resolver, timers, strand and threads other than as outstanding operations that complete.
- The client program, which is not built and whose relay repeats the tunnel with less state.
- Configuration files and JSON: the authentication flag and the users are parameters.
- The key generator, console output and main functions.
- Platforms where `std::stoul` is 32 bits wide.
- The past-the-end read of the response parser on a text that ends in CR: the connection only gives it text that ends in CRLF CRLF, and the model returns no head there.
- HeaderParser.ParseRequestHeader: the backtracking of the two patterns is modelled by its order of matches, not by its running time.
- Base64.TablesInverse: the two tables are written as ranges of characters, not as arrays of literals, and shifts and masks of bytes as arithmetic.
- The request and response records and the connection context are values in fields of the object, as they are members of it in the program.
- ProxyConnection.HttpProxyServerConnection.FrameUpload: the chunked upload is excluded by its precondition, because there the program looks into an empty optional and has no behaviour to specify.
- ProxyConnection.HttpProxyServerConnection.FrameRequest: the chunked upload is excluded by its precondition, for the same reason.
- ProxyConnection.HttpProxyServerConnection.OnRequestHeader: the chunked upload is excluded by its precondition, for the same reason.
- ProxyConnection.HttpProxyServerConnection.OnRequestHeaderData: the chunked upload is excluded by its precondition, for the same reason.
- ProxyConnection.HttpProxyServerConnection.OnProxyClientDataArrived: the chunked upload is excluded by its precondition, for the same reason.
- ProxyConnection.HttpProxyServerConnection.ProxyClientReadCompletes: the chunked upload is excluded by its precondition, for the same reason.
- ProxyConnection.HttpProxyServerConnection.Dispatch: the chunked upload is excluded by its precondition, for the same reason.
- ProxyConnection.HttpProxyServerConnection.Serve: the chunked upload is excluded by its precondition, for the same reason; aliasing between the records of the object is not modelled because there is none.
- ProxyRuns.OnlyAdmittedRequestsPass: stated for live connections; a connection that has ended starts nothing, by `ProxyInvariants.NothingAfterTheEnd`.
- ProxyRuns.UploadsAreWhole: stated for live connections, for the same reason.
- ProxyService.ExchangeCompletes: for requests and responses that come in one read each and are taken in one write each; all others are the subject of `ProxyProgress.ExchangeEnds`.
- ProxyTurns.EveryRequestIsAnswered: for a client that awaits each answer before it sends its next request; bytes it sends early count as part of the body, as they do in the program.
