# A model of librestserver

librestserver is a small HTTP server library in C. This project models the four parts of it whose
guarantees range over unbounded inputs and runs, and proves those guarantees.

**The HTTP/1.x parser** (`Http*.dfy`). `HttpSpec` gives the meaning of input octet by octet: a state
machine without buffers, marks, re-execution or bulk moves, whose callbacks all succeed.
`HttpParser` is `http_parser_execute` as it is written: a class whose methods update the parser's
fields, marks into the buffer, octets looked at again, inner loops over names and values, bulk moves
over bodies, and callbacks that may pause the parser or fail. It is proved to end, on every buffer,
where the octet-by-octet meaning ends. What the meaning guarantees then holds of the parser:
independence of how the input is cut and of where callbacks pause (`HttpRuns`), the invariant that the
code asserts (`HttpInvariant`), the language of callbacks (`HttpMessages`, `HttpTrace`), which names,
values, methods, lengths and URLs are recognised (`HttpKeywords`, `HttpHeaders`, `HttpMethods`,
`HttpLengths`, `HttpUrlWalk`, and `HttpOptions` for the options of a Connection list), how header octets
are counted (`HttpCount`), what headers and bodies of any message mean (`HttpFraming`), and that requests written out are read back
(`HttpRoundTrip`). `HttpLostOctets` shows how a header section over the limit is accepted, and
`HttpClient` puts the parser and its client together.
`HttpUrlSplit` is the second reading of a URL, `http_parser_parse_url`. The message framing is that of
sections 4.4 and 3.6.1 of RFC 2616. The parser is modelled in strict mode, its default.

**The multipart parser** (`Multipart*.dfy`). `MultipartSpec` is its meaning octet by octet,
`MultipartParser` the loop with its lookbehind buffer. `MultipartSearch` settles when the search for
the delimiter, which never goes back in the input, finds it; `MultipartRuns` and `MultipartRoundTrip`
are about cutting the input and about reading back what was written, and `MultipartHeaderText` settles
which cuts change header names and values.

**The thread pool**. `JobQueue` is its doubly linked list on the heap. `ThreadPool` is a step system of
workers, clients and the destroyer, over all interleavings of their steps.

**Containers and the header table**. `Containers` has the growable vector and the association list kept
in it, `ClientHeaders` the client that puts headers together from the pieces the parser reports, and
`StrReplace` the two-pass string replacement. `Common` has what several components use.

One `char` stands for one octet. Callbacks answer from the list of calls made so far, so a proof about
every answer function covers every application. `librestserver/http-parser-masterold/http_parser.c` is
a copy of `librestserver/http_parser.c` and is modelled once. Nothing here was executed.

## Model

| member | source | states |
|---|---|---|
| HttpParser.Parser.Execute | librestserver/http_parser.c:627-2073 | For any buffer, parser, kind and behaviour of the callbacks, the call ends where the octet-by-octet meaning of the buffer ends: same fields, same joined callbacks, and a return count that leaves exactly the octets not taken. A call that a callback stopped leaves octets from which the meaning goes on; every stop consumes an octet or lowers the rank of the state; the header counter exceeds the limit exactly when that is the error, grows by at most eight for each octet, and falls behind the octets it stands for only by those of a value whose callback stops the parser at its CR; so no stretch of header octets that has been accepted, completed or not, exceeds the limit by more than the octets lost of one stretch; a message that asks for another protocol ends the work of the parser, and nothing else does; no piece of a body is reported empty; on a parser that has failed, for whatever reason, nothing happens; end of input is handled per state. |
| HttpParser.Parser.ValueCrCase | librestserver/http_parser.c:1523-1529 | The value is reported at its CR before its octets are counted: if the callback stops the parser there they are never counted, otherwise they all are. |
| HttpParser.Parser.Iterate | librestserver/http_parser.c:694-702 | One octet counted and treated: the run stays on course, or what is returned answers for the whole buffer; the loop measure falls. |
| HttpParser.Parser.Parse | librestserver/http_parser.c:694-2072 | The loop over a nonempty buffer, with terminating re-execution; at most one mark is set at the end. |
| HttpParser.Parser.Switch | librestserver/http_parser.c:699-2047 | One turn of the switch keeps the run on course to its meaning and keeps the marks, the counter and the invariant. |
| HttpParser.Parser.Flush | librestserver/http_parser.c:2053-2067 | At the end of a buffer what the mark holds back is reported, on its channel, and nothing else. |
| HttpParser.Parser.AtEof | librestserver/http_parser.c:647-668 | End of input completes a body without length, is silent between messages, and is an error anywhere else. |
| HttpParser.Parser.CountHeaderSize | librestserver/http_parser.c:155-162 | The 32-bit counter wraps; overflow is raised exactly when it exceeds the limit. |
| HttpParser.Parser.Callback | librestserver/http_parser.c:81-98 | A callback that pauses or fails stops the parser, with the error that names it. |
| HttpParser.Parser.DataCallback | librestserver/http_parser.c:106-127 | The data from the mark on is reported once and the mark is cleared. |
| HttpParser.Parser.constructor | librestserver/http_parser.c:2126-2135 | A new parser has the initial fields of its kind. |
| HttpParser.Parser.SetPaused | librestserver/http_parser.c:2386-2399 | Pausing and unpausing change nothing but the error code. |
| HttpParser.Parser.StartReqCase | librestserver/http_parser.c:945-984 | The first octet of a request line against its meaning; message_begin may stop it. |
| HttpParser.Parser.BothCase | librestserver/http_parser.c:712-747 | Telling a request from a response by its first two octets. |
| HttpParser.Parser.StartCase | librestserver/http_parser.c:702-770 | The states between messages. |
| HttpParser.Parser.StatusCase | librestserver/http_parser.c:772-943 | The status line of a response, with the limits on version and status. |
| HttpParser.Parser.StatusTextCase | librestserver/http_parser.c:907-938 | The reason phrase is reported from its mark on. |
| HttpParser.Parser.MethodCase | librestserver/http_parser.c:986-1069 | The method matcher, an octet at a time. |
| HttpParser.Parser.UrlCase | librestserver/http_parser.c:1071-1142 | The URL states; the URL is reported when it ends. |
| HttpParser.Parser.VersionCase | librestserver/http_parser.c:1144-1264 | The version of a request line. |
| HttpParser.Parser.BeginFieldCase | librestserver/http_parser.c:1266-1313 | The first octet of a header line, or the empty line. |
| HttpParser.Parser.FieldScan | librestserver/http_parser.c:1321-1426 | The inner loop over a name: its automaton runs on, and no octet is lost. |
| HttpParser.Parser.FieldCase | librestserver/http_parser.c:1316-1443 | A header name up to its colon, with the counter made up for the octets skipped. |
| HttpParser.Parser.DiscardCase | librestserver/http_parser.c:1445-1462 | White space before a value, folded lines included, and values that are empty. |
| HttpParser.Parser.BeginValueCase | librestserver/http_parser.c:1460-1516 | The first octet of a value chooses the automaton and starts Content-Length. |
| HttpParser.Parser.ValueOctet | librestserver/http_parser.c:1572-1681 | One octet of a value that is being watched; a length that would overflow is refused. |
| HttpParser.Parser.ValueJump | librestserver/http_parser.c:1542-1564 | The bulk search moves an unwatched value on by what its octets mean one by one, or shows the header to be too long. |
| HttpParser.Parser.ValueScan | librestserver/http_parser.c:1518-1700 | The inner loop over a value, including the bulk search for a line end. |
| HttpParser.Parser.ValueCase | librestserver/http_parser.c:1518-1700 | A header value up to its line end. |
| HttpParser.Parser.LineEndCase | librestserver/http_parser.c:1702-1744 | The end of a header line sets the flag it has earned. |
| HttpParser.Parser.EndHeadersCase | librestserver/http_parser.c:1777-1825 | The empty line: trailers complete the message, headers are announced and upgrade is decided. |
| HttpParser.Parser.HeadersCompleteCase | librestserver/http_parser.c:1792-1822 | The headers_complete callback may pause or fail; its answer 1 changes nothing. |
| HttpParser.Parser.StartBodyCase | librestserver/http_parser.c:1827-1868 | The last LF of the headers, or an error, and the framing decision after it. |
| HttpParser.Parser.OpenBodyCase | librestserver/http_parser.c:1831-1868 | The counter is cleared and the body is framed: section 4.4 of RFC 2616. |
| HttpParser.Parser.IdentityCase | librestserver/http_parser.c:1870-1905 | A body of known length in one bulk move per buffer; its last octet is looked at again. |
| HttpParser.Parser.EofCase | librestserver/http_parser.c:1907-1911 | A body that lasts until the connection ends. |
| HttpParser.Parser.SizeCase | librestserver/http_parser.c:1918-1968 | The digits of a chunk size and what may follow them. |
| HttpParser.Parser.ChunkCase | librestserver/http_parser.c:1918-2034 | Chunk sizes and what surrounds chunk data. |
| HttpParser.Parser.ChunkDataCase | librestserver/http_parser.c:1998-2019 | Chunk data in one bulk move per buffer. |
| HttpBulk.SkipValue | librestserver/http_parser.c:1542-1564 | The search for a line end stops at one, or ran past the 80 KiB it searches. |
| HttpSpec.RunConcat | librestserver/http_parser.c:627-2073 | The meaning of a + b is the meaning of b from where a ends; if a stops, b is left over. |
| HttpInvariant.ByteKept | librestserver/http_parser.c:1422-2031 | No octet breaks the invariant: matcher index within its keyword, header_state within its set, F_CHUNKED in all chunk states, a length that is neither 0 nor the sentinel while a body is read, trailers only after chunks. |
| HttpInvariant.RunKept | librestserver/http_parser.c:1422-2031 | The invariant holds after every input that has not failed. |
| HttpBulk.BodyRun | librestserver/http_parser.c:1870-1905 | A bulk move over body octets is what the octets mean one by one. |
| HttpBulk.IdentityEnds | librestserver/http_parser.c:1870-1905 | The bulk move over the last octets of a body is what they mean one by one. |
| HttpBulk.ChunkEnds | librestserver/http_parser.c:1998-2019 | The bulk move to the end of a chunk is what its octets mean one by one. |
| HttpBulk.GeneralRun | librestserver/http_parser.c:1542-1564 | A bulk move over an unwatched value is what its octets mean one by one. |
| HttpBulk.EofRun | librestserver/http_parser.c:1907-1911 | A body without length is delivered as it comes. |
| HttpRuns.Drive | librestserver/http_parser.c:627-2073 | Split invariance and pause transparency: whatever pieces the input comes in and wherever callbacks pause, the parser ends with the fields and joined callbacks of the whole input; if it ends with a message that asks for another protocol, exactly the octets after that message are left to the caller. Header size is refused only when the counter exceeds the limit, and only if some stretch of header octets between two resets of the counter, bodies not counted, is so long that eight times its length exceeds the limit. The longest stretch of header octets accepted, of completed header sections and of the one still open, exceeds the limit by no more than the most octets lost of one stretch, and none are lost unless the callback for a value pauses: from a client that lets values pass every header section over the limit is refused. |
| HttpSpec.HighReached | librestserver/http_parser.c:155-162 | The longest stretch that this speaks of is real: it is the exact count of header octets since the last reset after some prefix of the input and the octet that follows it. |
| HttpSpec.ByteCounts | librestserver/http_parser.c:694-697 | An octet is counted in header states only, the count is cleared or kept, and what has been cleared is not forgotten. |
| HttpCount.RunStays | librestserver/http_parser.c:694-697 | As long as no header section is completed, every octet from the first of a message on is counted, and the count is not cleared. |
| HttpRuns.TwoCuts | librestserver/http_parser.c:627-2073 | Two parsers given the same octets cut differently, their callbacks pausing differently, agree on error, fields, joined callbacks and the octets left after a change of protocol, unless one refuses the header size; neither does unless some stretch of header octets is that long. |
| HttpRuns.DrivePiece | librestserver/http_parser.c:81-134 | Unpausing and handing over the octets left over carries a run through any number of pauses. |
| HttpLostOctets.SlipThrough | librestserver/http_parser.c:1523-1529 | From any parser in an unwatched value: if the callback for values pauses, the rest of the value with its CR, handed over as a buffer of its own, is taken in full and none of its octets is ever counted. |
| HttpLostOctets.Accepted | librestserver/http_parser.c:1523-1529 | GET / with one header a, for every text shorter than the limit as the rest of its value: if the head is over the limit, the request is accepted all the same, and reported as sent, from a client that pauses at values. |
| HttpLostOctets.Refused | librestserver/http_parser.c:155-162 | The same request, with any text that brings its head over the limit, is refused from a client that lets values pass, in whatever pieces it comes and wherever else callbacks pause. |
| HttpTrace.CallbackLanguage | librestserver/http_parser.c:702-2034 | The joined callbacks of a parser of any kind on any input are those of complete messages followed by a beginning of one more. A request is message_begin, its URL, headers, headers_complete, body, trailers, message_complete; a response repeats message_begin any number of times and then has its status, if it is not empty, in place of the URL. All messages are of the kind the parser is for; between messages nothing has begun, unless a response has been announced. |
| HttpTrace.ByteGood | librestserver/http_parser.c:945-2034 | Every octet keeps the callbacks readable as messages, in step with the state. |
| HttpTrace.NothingAfterClose | librestserver/http_parser.c:702-710 | After a message that ends the connection there is no callback; anything but CR and LF is an error. |
| HttpTrace.StrayLineEnds | librestserver/http_parser.c:749-770 | Of line ends before a message a request parser reports nothing, and a response parser reports message_begin once for each. |
| HttpMessages.ReadJoin | librestserver/http_parser.c:106-127 | Joining the pieces of data does not change the messages they spell. |
| HttpMessages.ReadEvents | librestserver/http_parser.c:945-2034 | The messages read from callbacks spell those callbacks again. |
| HttpKeywords.NamesRecognised | librestserver/http_parser.c:1266-1426 | At the colon header_state is connection, content-length, transfer-encoding or upgrade if and only if the lower-cased name is exactly that keyword (proxy-connection counting as connection). |
| HttpKeywords.ChunkedRecognised | librestserver/http_parser.c:1475-1482 | An unfolded Transfer-Encoding value is taken as chunked if and only if it is "chunked" in any case, followed by spaces only. |
| HttpOptions.OptionsRecognised | librestserver/http_parser.c:1493-1688 | Any unfolded Connection value, lists included, sets exactly the options that the list read element by element spells. A comma right after the beginning of an option does not end an element, and an element that does not begin with a token octet right after its comma ends the reading. |
| HttpOptions.ListRead | librestserver/http_parser.c:1608-1688 | Of elements joined by bare commas, each beginning with a token octet and none a mere beginning of an option, every one is noticed. |
| HttpOptions.ListStops | librestserver/http_parser.c:1619-1623 | From an element on that begins with anything else, such as a space after the comma, nothing is noticed. |
| HttpOptions.OneOption | librestserver/http_parser.c:1626-1688 | A value without commas sets keep-alive, close or upgrade if and only if it spells it. |
| HttpOptions.SpaceAfterComma | librestserver/http_parser.c:1619-1623 | "keep-alive, close" sets keep-alive only, "keep-alive,close" sets both. |
| HttpHeaders.FieldRun | librestserver/http_parser.c:1316-1426 | The parser run over a name leaves the header_state and index of the name automaton. |
| HttpHeaders.ValueRun | librestserver/http_parser.c:1518-1700 | The parser run over an unfolded value leaves the header_state and the flags of the value automaton and reports the value. |
| HttpHeaders.LineMeans | librestserver/http_parser.c:1266-1775 | A whole unfolded header line, with any blanks after its colon, is reported and sets exactly the flags it stands for; no other field changes. |
| HttpHeaders.LengthLine | librestserver/http_parser.c:1484-1597 | A whole unfolded Content-Length line, with any blanks after its colon, gives the message the number written in it, or is refused, exactly at the threshold. |
| HttpMethods.MethodsRecognised | librestserver/http_parser.c:945-1069 | A word before a space is accepted if and only if it is one of the 27 method names, and that method is recorded. |
| HttpMethods.MethodSound | librestserver/http_parser.c:986-1069 | What has been accepted as a method so far is the beginning of the name that is guessed. |
| HttpMethods.MethodComplete | librestserver/http_parser.c:986-1069 | Every method name is accepted octet by octet, through all its revised guesses. |
| HttpLengths.ChunkSizeExact | librestserver/http_parser.c:1918-1968 | A hexadecimal chunk size is refused if and only if its digits but the last exceed the threshold; otherwise its exact value is stored. |
| HttpLengths.ContentLengthExact | librestserver/http_parser.c:1484-1597 | A Content-Length of digits and spaces is refused if and only if its digits but the last exceed the threshold; otherwise its exact value, never the sentinel, is stored. |
| HttpUrlWalk.UrlRun | librestserver/http_parser.c:1071-1142 | The parser delivers a URL in full if and only if the URL automaton survives it. |
| HttpFraming.HeadersRun | librestserver/http_parser.c:1266-1775 | Any list of header lines that leave the framing alone is reported line by line and sets exactly the flags that the lines stand for. |
| HttpFraming.HeadersDone | librestserver/http_parser.c:1777-1868 | The empty line after the headers of any message clears the counter, reports them complete and opens the body that the flags and the length announce. |
| HttpFraming.IdentityBody | librestserver/http_parser.c:1870-1916 | In any message exactly Content-Length octets are delivered, then the message is complete, and the state that follows is the one NEW_MESSAGE gives it. |
| HttpFraming.ChunkedBody | librestserver/http_parser.c:1918-2034 | In any message, for every list of nonempty chunks, the coding of section 3.6.1 of RFC 2616 delivers exactly the joined chunks and the trailers and one message_complete; the state that follows is the one NEW_MESSAGE gives it, the flags of the trailer included. |
| HttpFraming.TrailerEnds | librestserver/http_parser.c:1785-1790 | The empty line after the trailer completes the message, and the next state is that of NEW_MESSAGE. |
| HttpRoundTrip.MessageRun | librestserver/http_parser.c:945-2034 | A request of any version, with any headers besides its framing, is reported with its URL, headers, body and trailers, and the parser holds its method and version when it is complete; the parser then waits for the next request, or the connection is over, exactly as version and Connection options say. |
| HttpRoundTrip.SwitchRun | librestserver/http_parser.c:1808-1840 | A CONNECT request, or one with an Upgrade header and the upgrade option, is reported complete at its empty line; its body and all that follows are left to the caller. |
| HttpRoundTrip.AllRun | librestserver/http_parser.c:945-2034 | Any number of pipelined requests, of which the last may close the connection, are read back in order, and nothing else is reported; the parser holds the method and version of the last. |
| HttpRoundTrip.EachRun | librestserver/rstclient.c:186-190 | Of any number of requests, each in its place: when its last octet has been read, it and those before it have been reported and nothing more, and the parser holds its method and version, which is where the client reads them. |
| HttpRoundTrip.ClosedRun | librestserver/http_parser.c:702-710 | After a last request that closes the connection nothing more is reported, whatever follows; line ends are tolerated, anything else is an error. |
| HttpRoundTrip.AllThenSwitch | librestserver/http_parser.c:1837-1840 | After any number of requests one that asks for another protocol leaves exactly what follows its empty line. |
| HttpRoundTrip.Serve | librestserver/http_parser.c:627-2073 | The same for the imperative parser, for every cut of the octets and every pattern of pauses. Nothing is refused while eight times the longest head of a request, with the trailer of the one before it, fits the header limit, whatever the bodies and the number of requests; and if the longest of these is itself over the limit, a client that lets values pass has it refused. If nothing is refused the parser holds the method and version of the last request. |
| HttpRoundTrip.ServeSwitch | librestserver/http_parser.c:627-2073 | The same when a request that asks for another protocol comes last: it is reported complete at its empty line, the parser holds its method and version, and exactly its body and what follows are left to the caller. Header sections over the limit are refused as by Serve. |
| HttpUrlSplit.Url.Parse | librestserver/http_parser.c:2287-2384 | Accepts a URL if and only if both passes accept it, CONNECT has host and port only, and the port is at most 65535; then each part covers exactly the octets the automata say, parts are disjoint and in bounds, only delimiters are in none, a schema has a host, and port is the number written. What the result holds beforehand matters only for a schema without a host; there the URL is not acceptable, and it is accepted exactly if the host automaton accepts what the range left over for the host covers. |
| HttpUrlSplit.LeftoverMatters | librestserver/rstclient.c:200-201 | The request parser delivers "http:///x", and of it http_parser_parse_url makes an error or a success depending on what its caller left in the result. |
| HttpUrlSplit.DeliveredUrlsSplit | librestserver/http_parser.c:2287-2384 | For a URL in any form: http_parser_parse_url accepts it if and only if the request parser delivers it and lets it end there and its host is well formed, its port fits, and a CONNECT target is host and port. |
| HttpUrlSplit.Url.FirstPass | librestserver/http_parser.c:2299-2352 | The loop survives exactly the URLs the automaton survives, and each part so far covers exactly its octets. |
| HttpUrlSplit.Url.ParseHost | librestserver/http_parser.c:2214-2285 | The host is accepted if and only if its automaton ends in a final state; user information, host and port then cover exactly their octets. |
| HttpUrlSplit.StrToUl | librestserver/http_parser.c:2370-2373 | strtoul reads exactly the digits that begin at the offset and saturates. |
| HttpUrlSplit.SplitIsPartition | librestserver/http_parser.c:2354-2384 | Ranges that are exact form a partition. |
| HttpUrlSplit.DeliveredPathsSplit | librestserver/http_parser.c:2287-2384 | The parser delivers a path as a request URL if and only if http_parser_parse_url accepts it. |
| MultipartParser.Parser.constructor | librestserver/multipart_parser.c:80-97 | A new parser, for any boundary, is in its start state. |
| MultipartParser.Parser.Execute | librestserver/multipart_parser.c:111-309 | For any buffer and state, with a boundary that is not empty, after an earlier refusal or not, unless it was that of the callback at the end of a part: the call ends where the octet-by-octet meaning of the buffer ends, with the same state, joined callbacks and return count. If a callback refuses, it is the last one made, the octet it was made at is not taken, and what has been reported by then is the beginning of what the meaning reports. |
| MultipartParser.Parser.FirstBoundaryTurn | librestserver/multipart_parser.c:121-148 | The first boundary and its line end. |
| MultipartParser.Parser.FieldTurn | librestserver/multipart_parser.c:150-180 | A header name, with what is reported and what is lost at the end of a buffer. |
| MultipartParser.Parser.ValueTurn | librestserver/multipart_parser.c:191-209 | A header value, with what is reported twice at the end of a buffer. |
| MultipartParser.Parser.DataTurn | librestserver/multipart_parser.c:219-237 | Part data from the mark on; a CR is kept back in the lookbehind buffer. |
| MultipartParser.Parser.ReturnTurn | librestserver/multipart_parser.c:239-249 | After a CR in part data: a LF may begin a delimiter, anything else delivers the CR and is looked at again. |
| MultipartParser.Parser.DelimiterTurn | librestserver/multipart_parser.c:251-265 | A delimiter that goes on, is found, or turns out to be data: then the lookbehind buffer is delivered and the octet looked at again. |
| MultipartParser.Parser.EndTurn | librestserver/multipart_parser.c:182-300 | The states around line ends and the closing delimiter. |
| MultipartSpec.ScanConcat | librestserver/multipart_parser.c:111-309 | Within one buffer the meaning of a + b is the meaning of b from where a ends. |
| MultipartRuns.OctetAlike | librestserver/multipart_parser.c:111-309 | State, notifications and part data do not depend on where buffers end. |
| MultipartRuns.HandedAlike | librestserver/multipart_parser.c:111-309 | Split invariance: pieces handed over one after the other come to the state, the octets not taken, the notifications and the part data of the whole. |
| MultipartRuns.Feed | librestserver/multipart_parser.c:111-309 | Handing pieces to the imperative parser reports exactly what the pieces come to, header names and values included, and takes as many octets as the whole would; if a callback refuses, what has been reported is the beginning of that, and the refused callback is the last one made. |
| MultipartHeaderText.CutsExact | librestserver/multipart_parser.c:150-217 | For every input from every state, refused input included: handed over in pieces it is reported exactly as in one buffer if and only if no buffer but the last ends after the CR that ends a value; inside a name, after a hyphen if the name is still going to be reported, or after a letter if it is not; or inside a value whose CR is the last octet of all. A name is going to be reported if nothing but letters and hyphens comes before its colon, or if the input ends with a letter before that. |
| MultipartHeaderText.PlainCuts | librestserver/multipart_parser.c:150-217 | For input that is taken in full, in which every name reaches its colon and which does not end inside header text, the exact condition is that no buffer ends after a hyphen inside a name or after the CR that ends a value. |
| MultipartHeaderText.HyphenLosesText | librestserver/multipart_parser.c:150-180 | "a-" and then ":" loses what was read of the name. |
| MultipartHeaderText.ReturnRepeatsValue | librestserver/multipart_parser.c:199-209 | "v" and CR, and then LF, reports the value twice, the second time with the CR. |
| MultipartHeaderText.CutReportsName | librestserver/multipart_parser.c:150-180 | A name that never reaches its colon is reported only if a buffer ends inside it. |
| MultipartHeaderText.CutKeepsValue | librestserver/multipart_parser.c:199-209 | A value whose CR is the last octet of the input is reported twice, but only once if a buffer ends right before the CR. |
| MultipartSearch.SearchFinds | librestserver/multipart_parser.c:219-265 | Up to the first delimiter all and only part data is delivered, except for the longest end that begins a delimiter; at the delimiter everything before it has been delivered and the part ends. |
| MultipartSearch.SearchExact | librestserver/multipart_parser.c:239-265 | The search recognises every first delimiter if and only if each CR in CRLF + boundary begins a repetition of it; a boundary without CR is enough. |
| MultipartSearch.Missed | librestserver/multipart_parser.c:252-258 | For any other boundary, a text whose delimiter is missed. |
| MultipartRoundTrip.RoundTrip | librestserver/multipart_parser.c:111-309 | A body written from parts is read back as those parts, in order, with headers and data, then body_end. |
| MultipartRoundTrip.ParseWhole | librestserver/multipart_parser.c:111-309 | The same for the imperative parser given the body in one buffer. |
| MultipartRoundTrip.ParsePieces | librestserver/multipart_parser.c:111-309 | Given the body in any pieces, all of it is taken, with the same notifications and part data; and exactly the parts come out, names and values included, if and only if no piece ends after a hyphen inside a name or after the CR that ends a value. |
| JobQueue.Queue.constructor | librestserver/C-Thread-Pool-master/C-Thread-Pool-master/thpool.c:221-228 | An empty queue. |
| JobQueue.Queue.Add | librestserver/C-Thread-Pool-master/C-Thread-Pool-master/thpool.c:232-260 | The job becomes the newest of the queue, links stay mutually inverse, the semaphore is posted. |
| JobQueue.Queue.RemoveLast | librestserver/C-Thread-Pool-master/C-Thread-Pool-master/thpool.c:264-291 | The oldest job leaves, the others keep their order; -1 on an empty queue. |
| JobQueue.Queue.Peek | librestserver/C-Thread-Pool-master/C-Thread-Pool-master/thpool.c:295-297 | The oldest job, or null. |
| JobQueue.Queue.Empty | librestserver/C-Thread-Pool-master/C-Thread-Pool-master/thpool.c:300-315 | Every job is freed once, oldest first, and the queue is empty. |
| JobQueue.Queue.LinksInverse | librestserver/C-Thread-Pool-master/C-Thread-Pool-master/thpool.c:232-291 | next and prev are mutually inverse within the queue. |
| ThreadPool.InitInv | librestserver/C-Thread-Pool-master/C-Thread-Pool-master/thpool.c:52-91 | The invariant holds of a new pool, with at least one worker. |
| ThreadPool.StepKept | librestserver/C-Thread-Pool-master/C-Thread-Pool-master/thpool.c:98-212 | Every step of a worker, a client or the destroyer keeps the invariant. |
| ThreadPool.PoolSafe | librestserver/C-Thread-Pool-master/C-Thread-Pool-master/thpool.c:98-212 | In every state of every interleaving: until shutdown jobsN is the semaphore plus the workers between sem_wait and removal plus a client about to post; nobody looks into an empty queue; what is removed is what was looked at; jobs leave in the order they were added; no job is run or freed twice; the ready counter is right. |
| ThreadPool.NoUseAfterFree | librestserver/C-Thread-Pool-master/C-Thread-Pool-master/thpool.c:119-133 | A job that a worker holds, from the moment it has looked at it until it frees it, has not been freed and has not been run before it runs; it is in the queue only until it is removed. |
| ThreadPool.OneInSection | librestserver/C-Thread-Pool-master/C-Thread-Pool-master/thpool.c:123-130 | At most one participant is in a section that looks at or changes the queue. |
| ThreadPool.PoolDestroyed | librestserver/C-Thread-Pool-master/C-Thread-Pool-master/thpool.c:178-212 | When destruction is done every worker has ended, every job ever made has been freed exactly once, and those run are exactly those removed. |
| ThreadPool.JobsGetTaken | librestserver/C-Thread-Pool-master/C-Thread-Pool-master/thpool.c:100-134 | While the pool is alive and a job is queued, whatever the clients are doing, somebody already at work, a worker or a client inside thpool_add_work, can take a step. |
| ThreadPool.WorkFinishes | librestserver/C-Thread-Pool-master/C-Thread-Pool-master/thpool.c:98-174 | Without new calls and before shutdown a run has a bounded number of steps, and one that cannot be continued is one after which the queue is empty and every job ever made has been run and freed exactly once. |
| ThreadPool.DestroyReturns | librestserver/C-Thread-Pool-master/C-Thread-Pool-master/thpool.c:178-201 | Destruction never gets stuck and ends within a bounded number of steps. |
| Containers.Vector.constructor | librestserver/rstutil.c:168-176 | An empty vector of capacity 2. |
| Containers.Vector.PushBack | librestserver/rstutil.c:178-186 | The element is appended; a full vector doubles. |
| Containers.Vector.Erase | librestserver/rstutil.c:188-196 | The element is removed in place and the others keep their order. |
| Containers.Map.constructor | librestserver/rstutil.c:222-230 | An empty map. |
| Containers.Map.Contains | librestserver/rstutil.c:232-242 | Whether the key is present. |
| Containers.Map.Find | librestserver/rstutil.c:244-255 | The value of the key. |
| Containers.Map.Insert | librestserver/rstutil.c:257-268 | A new key is appended with its value, a present one is left alone; size stays even and keys distinct. |
| Containers.Map.Erase | librestserver/rstutil.c:270-288 | For any comparator: one pass erases the pairs that match, destroys their values in order, and passes over the pair after each one erased; size stays even and keys distinct. |
| Containers.SweptIsWithout | librestserver/rstutil.c:270-288 | With a comparator that tells keys apart, as that of the client does, the pass erases exactly the pair with the key and destroys its value once. |
| Containers.SweptExactly | librestserver/rstutil.c:270-288 | For every comparator: no pair is lost that the key does not match; and the key is gone after the pass, all of its pairs erased and nothing else, if and only if it matched no two neighbouring pairs. |
| Containers.PassedOver | librestserver/rstutil.c:270-288 | An instance of the failing side: a comparator that is not transitive, a map, and a key that is found again after it has been erased. |
| Containers.PutLookup | librestserver/rstutil.c:257-268 | After an insertion the key has the value it had first and no other key has changed; keys stay distinct. |
| Containers.WithoutLookup | librestserver/rstutil.c:270-288 | After an erasure the key is gone and no other key has changed; keys stay distinct. |
| ClientHeaders.Client.constructor | librestserver/rstclient.c:19-42 | A new client has no header pending. |
| ClientHeaders.Client.SaveHeader | librestserver/rstclient.c:77-91 | A pending header is inserted and cleared; the assertion holds. |
| ClientHeaders.Client.OnHeaderField | librestserver/rstclient.c:45-60 | A name after a value saves the header before it and starts a new one; otherwise the piece is appended. |
| ClientHeaders.Client.OnHeaderValue | librestserver/rstclient.c:62-75 | A value after a name starts; otherwise the piece is appended. |
| ClientHeaders.Client.OnMessageComplete | librestserver/rstclient.c:186-194 | At the end of a message the pending header, if there is one, is inserted and cleared. |
| ClientHeaders.Client.On | librestserver/rstclient.c:45-91 | One callback, of any message, keeps the table and the pending header in step with the messages read so far. |
| ClientHeaders.Assemble | librestserver/rstclient.c:45-91 | For the callbacks of any number of messages the table is that of the header lists of all of them, trailers included: nothing empties it. |
| ClientHeaders.AssemblePieces | librestserver/rstclient.c:45-91 | The same for every way of cutting the data of any requests into pieces, in all the callbacks a parser can make. |
| HttpClient.ServeClient | librestserver/rstclient.c:186-194 | Parser and client together: in whatever pieces the requests arrive and wherever callbacks pause, the header table of the client is that of the headers and trailers of the requests sent, unless the header size is refused, which it is not while eight times the longest stretch of header octets is within the limit. |
| ClientHeaders.TableKeepsFirst | librestserver/rstutil.c:232-268 | The table of a header list gives each name the value it had first, and holds no name twice. |
| StrReplace.CountOccurrences | librestserver/rstutil.c:449-452 | The first pass counts the occurrences that leftmost, non-overlapping division finds. |
| StrReplace.CopyReplaced | librestserver/rstutil.c:464-471 | The second pass finds the same occurrences and fills the buffer exactly. |
| StrReplace.Replace | librestserver/rstutil.c:431-473 | The result is the replaced string and its terminator, in a buffer of exactly that length; a null string gives null. |
| StrReplace.StrStr | librestserver/rstutil.c:450-465 | strstr finds the first occurrence. |
| StrReplace.SplitExact | librestserver/rstutil.c:449-472 | Division is the only one into pieces separated by the pattern, each followed by its first occurrence; replacing a pattern by itself changes nothing. |
| StrReplace.GluedLength | librestserver/rstutil.c:459-459 | The length the first pass computes is the length of the result. |

## Left out

- The non-strict configuration of the HTTP parser, http_parser_version, http_errno_name, http_method_str and http_body_is_final.
- HttpParser.Parser.Execute: promises nothing about the meaning of a run that exceeded the header size limit but that some stretch of header octets is long, and for buffers longer than 4 GB minus 80 KiB only memory safety, termination and the invariant, because the 32-bit header counter can wrap there and the 80 KiB search for a line end can then skip one. No exact value of nread is stated, only bounds: it over-counts by one at buffer ends inside names and values and counts octets that are looked at again.
- HttpRuns.Drive: is about callbacks that proceed or pause; what a single call leaves when a callback fails is stated by HttpParser.Parser.Execute.
- HttpRoundTrip.AllRun: the versions written are those of one digit before and one after the point; requests without a version, folded header lines, and headers that repeat or contradict the framing header are not written. Responses are covered in the language of their callbacks and as far as their headers and bodies, in HttpFraming, but not written out from the status line on.
- The status code and version fields are 16 bits wide in the source; they are refused above 999, so no wrap-around is modelled.
- Returning 1 from on_headers_complete: the header file says it makes the parser expect no body, but F_SKIPBODY is bit 6 and the flags field has 6 bits, so it has no effect; the model follows the code.
- The unhex table: only its first half is initialised, so octets above 127 count as the digit 0 in a chunk size; the model follows the code.
- HttpUrlSplit.Url.Parse: for buffers of at most 65535 octets, because the offsets are 16 bits wide. For a schema without a host the range that the caller left for the host has to lie in the buffer; the only caller, in rstclient.c, passes an uninitialised result, and outside of the buffer there is nothing to model. What follows the buffer in memory is taken not to be a digit, where strtoul would read on.
- The multipart parser: callbacks that are not set and the debug log. MultipartParser.Parser.Execute is not stated for an empty boundary, nor after the callback at the end of a part has refused: there the source compares octets with the terminator of the boundary and what follows it in memory.
- The thread pool: failures of allocation and of thread creation, sem_destroy, and the semaphore functions defined in the file for other platforms; mutexes and semaphores are ideal, and each change of the ready counter under its own mutex is one step. No work is added once destruction has begun. The keep-alive flag is never set again, so a second pool is not modelled.
- Containers.Map.Erase: without a key destructor, because the source gives it the address of the slot and not the key; RST_Set, iterators, releasing maps and vectors, and overflow of the int capacity.
- Names and values with a NUL in them: the client stores them in full but compares keys as C strings.
- StrReplace.Replace: for a nonempty pattern, because the source does not end on an empty one; overflow of the int length computation is not modelled.
- Query strings, the JSON parser, the second request parser (requestparser.c), sockets, service routing, response formatting, character conversion and memory debugging: plumbing, or code that would add only easy members.
