# A verified model of XMRig's pool-nameserver DNS resolver

This project models, in Dafny, the DNS subsystem that XMRig uses to resolve
mining-pool host names without trusting the system resolver, together with
two small pieces it relies on.

- **DNS wire format** (`DnsWireFormat`, modules `Common`, `DnsName`,
  `DnsMessage`):
  - `buildQuery` builds a query.
  - `encodeName` and `decodeName` write and read domain names, including
    compression pointers, the 256-octet buffer and the ten-jump limit.
  - `parseResponse` and `parseAddressRecords` read responses.
  - `readU16` and `readU32` read big-endian fields.
- **DNS over TCP** (`DnsTcpClient`, module `DnsTcp`): a small client that
  sends one length-prefixed query and collects the answer from however many
  reads it arrives in.
- **Configuration and helpers** (modules `DnsConfig`, `DomainUtils`,
  `Strings`): the `dns` configuration section and its JSON round trip, the
  base-domain rule, and the address-literal test.
- **The pool-nameserver backend** (`DnsPoolNsBackend`, module `DnsPoolNs`):
  a state machine. It looks up the NS records of the pool's base domain over
  DNS over HTTPS (DoH), asks each name server for the host over DoH and then
  over TCP, falls back to a public DoH server ("simple DoH"), and finally to
  the system resolver. It keeps a TTL cache and a queue of waiting listeners.
- **`Dns::resolve`** (module `Dns`): the process-wide map from host names to
  resolver backends.
- **The HTTP/2 client callbacks** the DoH fetches use (module `Http2`):
  - `onDataSourceRead`, `onHeader`, `onDataChunkRecv` and `onStreamClose`;
  - the ALPN offer and `verifyAlpn`.
- **`scripts/embed_html.py`** (module `EmbedHtml`): it gzips the web UI and
  writes it as a C++ byte array.

How the code is modelled:

- Code that computes a value is written as functions.
- Each class that the source updates in place is a Dafny `class`:
  `DnsTcpClient`, `DnsPoolNsBackend`, `Http2Client` and `Dns`'s static
  state. Each of its methods is proved equal to a transition function over
  a value snapshot (`State()`).
- The properties are proved as lemmas over those functions. They include:
  - the frame and name round trips;
  - the backend invariant, which every callback keeps;
  - the retry and fallback rules;
  - the delivery of results to listeners in queue order.
- The loops of the source are methods with loop invariants, proved against
  their specification functions.
- `decodeName` and the parsers built on it take a label rule:
  `StallWhenFull` is the code as written, and `SkipWhenFull` is the
  correction of Findings row 2. The DNS-over-TCP client and the
  pool-nameserver backend parse with the corrected rule.

Anything outside the process is an input, or a recorded action:

- DoH fetches, timers, TCP connections, system resolution and listener
  calls are recorded as actions.
- These are parameters: `rand()`, the clock, `uv_inet_pton`,
  `uv_inet_ntop`, `atoi`, `gzip`, and which listeners are still alive.

## Model

| member | source | states |
|---|---|---|
| Common.ReadU16Encodes | src/base/net/dns/DnsWireFormat.cpp:326-329 | the value `readU16` returns is the one whose big-endian encoding sits at the offset |
| Common.ReadU32Encodes | src/base/net/dns/DnsWireFormat.cpp:332-338 | the value `readU32` returns is the one whose big-endian encoding sits at the offset |
| Common.ReadU16OfBytes | src/base/net/dns/DnsWireFormat.cpp:326-329 | a 16-bit field written high octet first reads back as its value, wherever it sits |
| Common.U16BytesInjective | src/base/net/dns/DnsWireFormat.cpp:326-329 | two 16-bit values with the same encoding are equal |
| Common.ReadU32OfBytes | src/base/net/dns/DnsWireFormat.cpp:332-338 | a 32-bit field written high octet first reads back as its value |
| Strings.Split | src/base/net/dns/DomainUtils.cpp:35 | `split('.')` gives at least one field, and no field holds the separator |
| Strings.JoinSplit | src/base/net/dns/DomainUtils.cpp:35 | joining the fields with the separator gives back the text |
| Strings.SplitJoin | src/base/net/dns/DomainUtils.cpp:35 | separator-free parts, joined and split again, come back unchanged |
| Strings.Truncate | src/base/net/dns/DomainUtils.cpp:41-44 | `snprintf` into the 256-octet buffer keeps the first `min(|s|, 255)` characters |
| DomainUtils.BaseDomainKeeps | src/base/net/dns/DomainUtils.cpp:29-39 | an empty host, an IPv4 or IPv6 literal, or a host of at most two parts is its own base domain |
| DomainUtils.LastTwoPartsEndHost | src/base/net/dns/DomainUtils.cpp:35-42 | the last two parts joined by one dot are a suffix of the host |
| DomainUtils.BaseDomainOfLongHost | src/base/net/dns/DomainUtils.cpp:41-44 | a host of three or more parts gives its last two parts, cut to 255 characters; below the cap this is a suffix of the host, at the cap a prefix of that suffix |
| DomainUtils.BaseDomainIdempotent | src/base/net/dns/DomainUtils.cpp:29-45 | the base domain of a base domain is itself, even when the 255-character cut fell inside a part |
| DnsConfig.Default | src/base/net/dns/DnsConfig.h:58-63 | the member initialisers: TTL 30 s, any IP version, pool-ns on, a 1000 ms timeout, and `dns.google` / `dns.nextdns.io` as the DoH servers |
| DnsConfig.GetUint | src/base/net/dns/DnsConfig.cpp:48-55 | the member's value when it is present as an unsigned 32-bit integer, the default otherwise |
| DnsConfig.GetBool | src/base/net/dns/DnsConfig.cpp:54 | the member's value when it is present as a boolean, the default otherwise |
| DnsConfig.GetString | src/base/net/dns/DnsConfig.cpp:56-57 | the member's value when it is present as a string, the default otherwise |
| DnsConfig.FromJsonFields | src/base/net/dns/DnsConfig.cpp:46-58 | the constructor takes `ip_version` only when it is 0, 4 or 6, raises the TTL to at least 1, keeps a given TTL of at least 1, and keeps each default for an absent member |
| DnsConfig.EmptyGivesDefault | src/base/net/dns/DnsConfig.cpp:46-58 | an empty section gives exactly the defaults |
| DnsConfig.AiFamily | src/base/net/dns/DnsConfig.cpp:61-72 | AF_INET exactly for version 4, AF_INET6 exactly for 6, AF_UNSPEC otherwise |
| DnsConfig.IsDoHServer | src/base/net/dns/DnsConfig.cpp:75-78 | true exactly for the primary or the fallback DoH server |
| DnsConfig.TtlMillis | src/base/net/dns/DnsConfig.h:47 | `ttl()` is the seconds times 1000 up to 4294967 s; above that the `uint32_t` product wraps and comes out smaller |
| DnsConfig.TtlWraps | src/base/net/dns/DnsConfig.h:47 | 4294967 s gives 4294967000 ms, and 4294968 s wraps to 704 ms |
| DnsConfig.ToJson | src/base/net/dns/DnsConfig.cpp:81-96 | `toJSON` writes exactly the six members |
| DnsConfig.JsonRoundTrip | src/base/net/dns/DnsConfig.cpp:46-96 | reading back what `toJSON` writes gives the same configuration, for every configuration the constructor can produce |
| DnsConfig.JsonRoundTripNeedsValid | src/base/net/dns/DnsConfig.cpp:53 | a stored TTL of 0, which the constructor never produces, comes back as 1 |
| DnsName.FirstLongLabel | src/base/net/dns/DnsWireFormat.cpp:253-258 | the index of the first label longer than 63 characters: every label before it is short |
| DnsName.AppendLabel | src/base/net/dns/DnsWireFormat.cpp:259-262 | a label is appended as its length octet, then its octets |
| DnsName.EncodeName | src/base/net/dns/DnsWireFormat.cpp:246-267 | `encodeName` succeeds exactly when the name has an encoding, and then appends it; on failure it has appended the labels before the first long one |
| DnsName.AfterLabel | src/base/net/dns/DnsWireFormat.cpp:301-312 | after a label the buffer still holds at most 255 characters and the read position has moved on |
| DnsName.DecodeFrom | src/base/net/dns/DnsWireFormat.cpp:278-320 | a decoded name has at most 255 characters; once a pointer has been followed, the offset reported is the caller's |
| DnsName.CopyLabel | src/base/net/dns/DnsWireFormat.cpp:310-312 | the copy loop copies the label's octets while the buffer has room, and stops where it stopped copying |
| DnsName.ReadLabel | src/base/net/dns/DnsWireFormat.cpp:301-312 | the label branch of the loop gives the read position and buffer of `AfterLabel` |
| DnsName.DecodeName | src/base/net/dns/DnsWireFormat.cpp:270-323 | `decodeName` succeeds exactly when `DecodeNameAt` does, with its name (at most 255 characters) and its new offset |
| DnsName.CTextOfOctetText | src/base/net/dns/DnsWireFormat.cpp:315-320 | text without NUL whose characters are octets survives the C-string conversion |
| DnsName.AppendLabelText | src/base/net/dns/DnsWireFormat.cpp:306-312 | the buffer after one more label is the dotted text, cut to 255 characters |
| DnsName.EncodedLabelsAreAt | src/base/net/dns/DnsWireFormat.cpp:259-262 | encoded well-formed labels lie in the message label by label |
| DnsName.ReadOneLabel | src/base/net/dns/DnsWireFormat.cpp:301-312 | the decoder copies one encoded label into the buffer, all of it when it fits |
| DnsName.ReadLabels | src/base/net/dns/DnsWireFormat.cpp:278-312 | the decoder steps over encoded labels, reaching their end with them copied; the code as written gets there only while each label fits |
| DnsName.FoldBuffer | src/base/net/dns/DnsWireFormat.cpp:306-312 | the buffer after the labels holds the dotted text cut to 255 characters; when that text is not cut, every label fits |
| DnsName.SkipLabels | src/base/net/dns/DnsWireFormat.cpp:301-312 | the buffer after `k` ordinary labels stays within 255 characters |
| DnsName.RunLabels | src/base/net/dns/DnsWireFormat.cpp:278-312 | ordinary labels lead the decoder to the cursor after them |
| DnsName.WellFormedEncodes | src/base/net/dns/DnsWireFormat.cpp:246-267 | `encodeName` accepts every well-formed name |
| DnsName.DecodeEncodedName | src/base/net/dns/DnsWireFormat.cpp:246-323 | round trip: a well-formed name, encoded anywhere in a message, decodes to itself cut to 255 characters, with the offset just past it; the code as written does so for names of at most 255 characters |
| DnsName.ReadEncodedLabels | src/base/net/dns/DnsWireFormat.cpp:278-320 | labels followed by a zero octet decode to the dotted text, and the offset lands past the zero octet |
| DnsName.ReadLabelsFromStart | src/base/net/dns/DnsWireFormat.cpp:278-312 | labels read into the empty buffer leave their dotted text, cut to 255 characters |
| DnsName.NameLabels | src/base/net/dns/DnsWireFormat.cpp:248-265 | a well-formed name is encoded label by label and closed by a zero octet |
| DnsName.TerminatorStep | src/base/net/dns/DnsWireFormat.cpp:281-286 | at a zero octet the decoder stops with its text, the offset just past the octet |
| DnsName.DecodeEndsInline | src/base/net/dns/DnsWireFormat.cpp:278-320 | the corrected decoder reports the offset where the in-line part of the name ends, wherever pointers lead; a name whose in-line part runs off the message is rejected |
| DnsName.SelfPointerFrom | src/base/net/dns/DnsWireFormat.cpp:288-299 | from a pointer to itself, each remaining jump ends in the empty name |
| DnsName.SelfPointerStops | src/base/net/dns/DnsWireFormat.cpp:276-299 | a pointer to itself stops after ten jumps with the empty name, the offset past the pointer |
| DnsName.OverlongNameWellFormed | src/base/net/dns/DnsWireFormat.cpp:246-267 | five labels of 63 characters form a well-formed name of 319 characters, which `encodeName` accepts |
| DnsName.OverlongLayout | src/base/net/dns/DnsWireFormat.cpp:259-265 | that encoding is 321 octets, wherever it sits in a message, and the first four labels take 256 |
| DnsName.OverlongFourLabels | src/base/net/dns/DnsWireFormat.cpp:306-312 | wherever the name sits, the decoder as written reaches the fifth label with the buffer full at 255 characters |
| DnsName.StallRejectsOverlong | src/base/net/dns/DnsWireFormat.cpp:310-312 | the code as written rejects such a name wherever it sits, when fewer octets follow it than the fifth label's first octet, taken for a length, asks for; the read position stalls once the buffer is full |
| DnsName.SkipTruncatesOverlong | src/base/net/dns/DnsWireFormat.cpp:310-312 | the corrected decoder reads such a name as its first 255 characters, the offset at 321 |
| DnsName.OverlongNameRejectedAsWritten | src/base/net/dns/DnsWireFormat.cpp:310-312 | the concrete name of five 63-character labels of 'a': accepted by `encodeName`, rejected by the decoder as written, read by the corrected decoder |
| DnsMessage.Header | src/base/net/dns/DnsWireFormat.cpp:44-59 | a header is twelve octets |
| DnsMessage.Query | src/base/net/dns/DnsWireFormat.cpp:39-72 | the query is empty exactly when `encodeName` refuses the name |
| DnsMessage.Question | src/base/net/dns/DnsWireFormat.cpp:61-69 | a question is the encoded name plus four octets |
| DnsMessage.BuildQuery | src/base/net/dns/DnsWireFormat.cpp:39-72 | `buildQuery` with the random ID `id` returns the query of `Query` |
| DnsMessage.HeaderFields | src/base/net/dns/DnsWireFormat.cpp:44-59 | the six header fields read back as written |
| DnsMessage.QueryLayout | src/base/net/dns/DnsWireFormat.cpp:39-72 | a built query has the ID, flags 0x0100, one question and no other records, then the name, QTYPE and QCLASS IN, in 16 + (name length) octets |
| DnsMessage.SkipQuestions | src/base/net/dns/DnsWireFormat.cpp:91-100 | the question loop, each name read under the given label rule (`StallWhenFull` is the code as written): the offset after the questions lies inside the message |
| DnsMessage.AnswerAt | src/base/net/dns/DnsWireFormat.cpp:103-119 | one turn of the answer loops under the given label rule, with the ten fixed octets checked after the owner name (the corrected guard of Findings row 1): a record's RDATA starts after at least ten octets and lies inside the message |
| DnsMessage.AnswerAtAgreesAsWritten | src/base/net/dns/DnsWireFormat.cpp:103-119 | under either label rule, wherever the guard as written keeps the reads inside the message, the turn with the re-checked guard agrees with it; where it reads past the end, that turn reports a malformed answer |
| DnsMessage.AnswerGuardOverreadsAsWritten | src/base/net/dns/DnsWireFormat.cpp:103-115 | a 23-octet response whose owner name ends nine octets before the end passes the length check, and TYPE and RDLENGTH are read past the end |
| DnsMessage.Response | src/base/net/dns/DnsWireFormat.cpp:75-145 | `parseResponse` under the given label rule refuses a short message or a non-zero RCODE and leaves `results` alone; success means a non-empty `results`; it only ever appends |
| DnsMessage.SkipQuestionSection | src/base/net/dns/DnsWireFormat.cpp:91-100 | the question loop, under either label rule, succeeds exactly when `SkipQuestions` does under that rule, at its offset |
| DnsMessage.ParseResponse | src/base/net/dns/DnsWireFormat.cpp:75-145 | the imperative `parseResponse`, with `decodeName` following the given label rule, computes `Response` under that rule |
| DnsMessage.ScanTyped | src/base/net/dns/DnsWireFormat.cpp:102-142 | under either label rule, every entry the answer loop collects has the requested type: a 4-octet address text for A, a 16-octet one for AAAA, a name of at most 255 characters for NS and CNAME |
| DnsMessage.ResponseTyped | src/base/net/dns/DnsWireFormat.cpp:75-145 | for every message, everything `parseResponse` appends to `results` has the requested type, as `ScanTyped` states |
| DnsMessage.ResponseComplete | src/base/net/dns/DnsWireFormat.cpp:81-144 | for a message that passes the header check, the verdict of `parseResponse`. An unreadable or truncated question fails with `results` unchanged. An answer that is cut short or runs past the message makes it fail. Once every answer is read, it succeeds exactly when `results` is non-empty. |
| DnsMessage.AnswerSection | src/base/net/dns/DnsWireFormat.cpp:102-142 | the answer loop, under either label rule, computes the scan of `ancount` answers after the earlier results |
| DnsMessage.AnswerTurn | src/base/net/dns/DnsWireFormat.cpp:102-142 | one loop turn either keeps the scan's outcome, with the rest of the answers still to go, or fails with `results` as they are |
| DnsMessage.ScanStep | src/base/net/dns/DnsWireFormat.cpp:102-142 | a scan is the first record's entry followed by the scan of the remaining answers |
| DnsMessage.ReadAnswer | src/base/net/dns/DnsWireFormat.cpp:103-141 | the loop body, under either label rule, succeeds exactly on a record; it returns the offset past RDATA and the entry to append |
| DnsMessage.KeptAddress | src/base/net/dns/DnsWireFormat.cpp:199-224 | a record contributes nothing, or one address that the family allows |
| DnsMessage.AddressRecords | src/base/net/dns/DnsWireFormat.cpp:148-243 | `parseAddressRecords` under the given label rule leaves `records` alone on failure; success means some address was kept; a short message or a non-zero RCODE fails |
| DnsMessage.ScanAddressesAllowed | src/base/net/dns/DnsWireFormat.cpp:180-227 | every address the loop keeps is allowed by the family |
| DnsMessage.AddressRecordsAllowed | src/base/net/dns/DnsWireFormat.cpp:148-243 | a successful parse holds only addresses of the requested family |
| DnsMessage.ParseAddressRecords | src/base/net/dns/DnsWireFormat.cpp:148-243 | the imperative `parseAddressRecords`, with `decodeName` following the given label rule, computes `AddressRecords` under that rule |
| DnsMessage.AddressSection | src/base/net/dns/DnsWireFormat.cpp:180-227 | the answer loop, under either label rule, collects exactly the addresses of `ScanAddresses` |
| DnsMessage.AddressTurn | src/base/net/dns/DnsWireFormat.cpp:180-227 | one loop turn extends the collected addresses consistently with the scan, or breaks with nothing more to collect |
| DnsMessage.ScanAddressesStep | src/base/net/dns/DnsWireFormat.cpp:180-227 | a scan is the first record's address, then the scan of the rest |
| DnsMessage.ReadAddress | src/base/net/dns/DnsWireFormat.cpp:181-226 | the loop body, under either label rule, continues exactly on a record, with the offset past RDATA and the kept address |
| DnsMessage.ResourceRecord | src/base/net/dns/DnsWireFormat.cpp:112-119 | a resource record is the owner name, ten octets of fields, and the RDATA |
| DnsMessage.SkipQuestion | src/base/net/dns/DnsWireFormat.cpp:91-100 | the question loop steps over a question with a well-formed name: as written when the name has at most 255 characters, corrected always |
| DnsMessage.QuerySkipped | src/base/net/dns/DnsWireFormat.cpp:91-100 | a built query passes the header check, and its question ends where the message ends: as written when the name has at most 255 characters, corrected always |
| DnsMessage.AnswerOfRecord | src/base/net/dns/DnsWireFormat.cpp:103-119 | one answer step reads a record's TYPE and finds its RDATA where it was written: as written when the owner name has at most 255 characters, corrected always |
| DnsMessage.RecordLayout | src/base/net/dns/DnsWireFormat.cpp:112-119 | where TYPE, RDLENGTH and RDATA lie in a record |
| DnsMessage.OneAddressRecord | src/base/net/dns/DnsWireFormat.cpp:148-243 | a response with one question and one A or AAAA record returns that address when the family allows it, and otherwise fails and leaves the records alone: as written when both names have at most 255 characters, corrected always |
| DnsMessage.OneAnswer | src/base/net/dns/DnsWireFormat.cpp:75-145 | a response with one A or AAAA record appends the address text when the length fits the type, and nothing for an A record of another length: as written when both names have at most 255 characters, corrected always |
| DnsMessage.ResponseOfOneRecord | src/base/net/dns/DnsWireFormat.cpp:102-144 | the same, for any message whose single answer is that record |
| DnsMessage.OneRecordScan | src/base/net/dns/DnsWireFormat.cpp:102-144 | a message with one answer appends that answer's entry, and succeeds exactly when the results are then non-empty |
| DnsMessage.EntryOfRecord | src/base/net/dns/DnsWireFormat.cpp:121-139 | the entry of an A or AAAA record is its address text when the length fits the type, and none otherwise |
| DnsMessage.AddressesOfOneRecord | src/base/net/dns/DnsWireFormat.cpp:180-242 | a message whose one answer is an address record yields that address exactly when the family allows it |
| DnsMessage.OneRecordMessage | src/base/net/dns/DnsWireFormat.cpp:81-119 | a one-question, one-answer response passes the header and question checks, and its answer step finds the record: as written when both names have at most 255 characters, corrected always |
| DnsMessage.OverlongQuestionRejectedAsWritten | src/base/net/dns/DnsWireFormat.cpp:91-100 | a response echoing the question for a name of five 63-octet labels, with one A record, fails in the question loop of `parseResponse` and `parseAddressRecords` as written, and yields the address under the corrected rule |
| DnsTcp.QueryType | src/base/net/dns/DnsTcpClient.cpp:114 | AAAA exactly for an IPv6-only client, A otherwise |
| DnsTcp.Frame | src/base/net/dns/DnsTcpClient.cpp:121-124 | the frame is two octets longer than the query and ends with it |
| DnsTcp.FramePrefix | src/base/net/dns/DnsTcpClient.cpp:121-123 | the length prefix reads back as the query length modulo 2^16, and exactly as the length below 65536 |
| DnsTcp.Closed | src/base/net/dns/DnsTcpClient.cpp:178-193 | `close` closes each open handle once and changes nothing else |
| DnsTcp.InitialValid | src/base/net/dns/DnsTcpClient.cpp:26-43 | a new client satisfies the client invariant and has completed nothing |
| DnsTcp.FinishedOnce | src/base/net/dns/DnsTcpClient.cpp:160-175 | `done` calls the callback once with the records; a second call changes nothing |
| DnsTcp.ClosedIgnoresEvents | src/base/net/dns/DnsTcpClient.cpp:62-109 | once closed, connect, read and timer events change nothing |
| DnsTcp.ReceivedFollowsVerdict | src/base/net/dns/DnsTcpClient.cpp:135-157 | `read` on an open client waits, fails or parses, as the verdict on all octets received so far decides; a latched length never changes |
| DnsTcp.ExaminedFollowsVerdict | src/base/net/dns/DnsTcpClient.cpp:143-156 | once the length is latched, a length outside 12 to 65535 fails, and a complete message is parsed |
| DnsTcp.EventsKeepValid | src/base/net/dns/DnsTcpClient.cpp:52-157 | every event keeps the client invariant |
| DnsTcp.ConnectKeepsValid | src/base/net/dns/DnsTcpClient.cpp:62-77 | `onConnect` keeps the client invariant |
| DnsTcp.ConnectWritesFrame | src/base/net/dns/DnsTcpClient.cpp:62-132 | a successful connect starts reading and writes the frame of the built query; a failed connect, a refused name or a short write fails the client |
| DnsTcp.FramePrefixWaits | src/base/net/dns/DnsTcpClient.cpp:139-153 | octets before the end of a frame leave the client waiting |
| DnsTcp.FrameDelivers | src/base/net/dns/DnsTcpClient.cpp:143-156 | a whole frame, whatever follows it, delivers exactly its message |
| DnsTcp.ChunkedFrameCompletes | src/base/net/dns/DnsTcpClient.cpp:80-157 | however the frame is cut into reads, the client completes once, with the outcome of parsing exactly the announced message |
| DnsTcp.ChunkWaits | src/base/net/dns/DnsTcpClient.cpp:135-153 | a read that does not finish the frame buffers its octets and completes nothing |
| DnsTcp.ChunkDelivers | src/base/net/dns/DnsTcpClient.cpp:135-157 | a read that finishes the frame closes the client and delivers the parsed records |
| DnsTcp.FedClosed | src/base/net/dns/DnsTcpClient.cpp:84-87 | a closed client ignores every read |
| DnsTcp.DnsTcpClient.constructor | src/base/net/dns/DnsTcpClient.cpp:26-43 | both handles open, the callback set, nothing received |
| DnsTcp.DnsTcpClient.Start | src/base/net/dns/DnsTcpClient.cpp:52-59 | the new state is `Started`: connect, and arm the timer |
| DnsTcp.DnsTcpClient.OnConnect | src/base/net/dns/DnsTcpClient.cpp:62-77 | the new state is `Connected` |
| DnsTcp.DnsTcpClient.OnRead | src/base/net/dns/DnsTcpClient.cpp:80-99 | the new state is `ReadEvent` |
| DnsTcp.DnsTcpClient.OnTimer | src/base/net/dns/DnsTcpClient.cpp:102-109 | the new state is `TimedOut` |
| DnsTcp.DnsTcpClient.Send | src/base/net/dns/DnsTcpClient.cpp:112-132 | the new state is `Sent` |
| DnsTcp.DnsTcpClient.Read | src/base/net/dns/DnsTcpClient.cpp:135-157 | the new state is `Received` |
| DnsTcp.DnsTcpClient.Examine | src/base/net/dns/DnsTcpClient.cpp:143-157 | the new state is `Examined` |
| DnsTcp.DnsTcpClient.Done | src/base/net/dns/DnsTcpClient.cpp:160-175 | the new state is `Finished` |
| DnsTcp.DnsTcpClient.Close | src/base/net/dns/DnsTcpClient.cpp:178-193 | the new state is `Closed` |
| DnsPoolNs.DeliverAll | src/base/net/dns/DnsPoolNsBackend.cpp:533-537 | the `notify` loop makes one call per queued listener still alive, in queue order, each with the records and status |
| DnsPoolNs.FallbackToSystemStep | src/base/net/dns/DnsPoolNsBackend.cpp:489-520 | `fallbackToSystem` restores the backend invariant and keeps the name-server index and the queue |
| DnsPoolNs.StartSimpleDoHStep | src/base/net/dns/DnsPoolNsBackend.cpp:230-251 | `startSimpleDoH` restores the invariant from either DoH server; it keeps the index and the queue |
| DnsPoolNs.StartNsLookupStep | src/base/net/dns/DnsPoolNsBackend.cpp:254-279 | `startNsLookup` restores the invariant from either DoH server; it keeps the index and the queue |
| DnsPoolNs.FallbackToSimpleDoHStep | src/base/net/dns/DnsPoolNsBackend.cpp:480-486 | `fallbackToSimpleDoH` restores the invariant; it keeps the index and the queue |
| DnsPoolNs.TryNextNsStep | src/base/net/dns/DnsPoolNsBackend.cpp:450-461 | `tryNextNs` restores the invariant and moves the name-server index strictly forward |
| DnsPoolNs.StartPoolQueryStep | src/base/net/dns/DnsPoolNsBackend.cpp:329-338 | `startPoolQuery` restores the invariant and never moves the index back |
| DnsPoolNs.StartPoolQueryDoHStep | src/base/net/dns/DnsPoolNsBackend.cpp:341-359 | `startPoolQueryDoH` restores the invariant and never moves the index back |
| DnsPoolNs.StartNsResolveStep | src/base/net/dns/DnsPoolNsBackend.cpp:299-326 | `startNsResolve` restores the invariant and never moves the index back |
| DnsPoolNs.StartPoolQueryTcpStep | src/base/net/dns/DnsPoolNsBackend.cpp:362-402 | `startPoolQueryTcp` restores the invariant and never moves the index back |
| DnsPoolNs.PoolFailureStep | src/base/net/dns/DnsPoolNsBackend.cpp:464-477 | trying TCP to the peer address, or looking up the name server's address, restores the invariant |
| DnsPoolNs.PoolQueryCompleteStep | src/base/net/dns/DnsPoolNsBackend.cpp:420-447 | `onPoolQueryComplete` restores the invariant and keeps the index |
| DnsPoolNs.NsLookupCompleteStep | src/base/net/dns/DnsPoolNsBackend.cpp:282-296 | `onNsLookupComplete` restores the invariant and keeps the queue |
| DnsPoolNs.ResolveStep | src/base/net/dns/DnsPoolNsBackend.cpp:81-123 | `resolve` keeps the backend invariant |
| DnsPoolNs.RestartStep | src/base/net/dns/DnsPoolNsBackend.cpp:108-122 | routing a new resolution establishes the invariant |
| DnsPoolNs.HttpFailureStep | src/base/net/dns/DnsPoolNsBackend.cpp:134-148 | a non-200 answer keeps the invariant and never moves the index back |
| DnsPoolNs.NsLookupDataStep | src/base/net/dns/DnsPoolNsBackend.cpp:153-164 | an NS answer keeps the invariant and never moves the index back |
| DnsPoolNs.NsResolveDataStep | src/base/net/dns/DnsPoolNsBackend.cpp:165-174 | a name-server address answer keeps the invariant and never moves the index back |
| DnsPoolNs.SimpleDoHDataStep | src/base/net/dns/DnsPoolNsBackend.cpp:175-194 | a simple-DoH answer keeps the invariant and never moves the index back |
| DnsPoolNs.HttpDataStep | src/base/net/dns/DnsPoolNsBackend.cpp:126-195 | `onHttpData` keeps the invariant and never moves the index back |
| DnsPoolNs.PoolDoHResponseStep | src/base/net/dns/DnsPoolNsBackend.cpp:198-227 | `onPoolDoHResponse` keeps the invariant and never moves the index back |
| DnsPoolNs.PoolAnswerStep | src/base/net/dns/DnsPoolNsBackend.cpp:215-226 | a 200 answer from a name server restores the invariant, whether it ends the resolution or fails |
| DnsPoolNs.TcpQueryCompleteStep | src/base/net/dns/DnsPoolNsBackend.cpp:405-417 | `onTcpQueryComplete` keeps the invariant and never moves the index back |
| DnsPoolNs.TimeoutStep | src/base/net/dns/DnsPoolNsBackend.cpp:543-561 | `onTimeout` keeps the invariant and never moves the index back |
| DnsPoolNs.FallbackResolvedStep | src/base/net/dns/DnsPoolNsBackend.cpp:505-512 | the system resolver's answer keeps the invariant and the index |
| DnsPoolNs.InitialValid | src/base/net/dns/DnsPoolNsBackend.h:89-107 | a new backend is idle, has an empty queue, and satisfies the invariant |
| DnsPoolNs.ListeningCounts | src/base/net/dns/DnsPoolNsBackend.cpp:533-537 | each live listener is called as often as it was queued; a dead one is not called |
| DnsPoolNs.DeliveriesInOrder | src/base/net/dns/DnsPoolNsBackend.cpp:531-537 | call `i` goes to listener `i`, with the records, the status, and the error flag exactly when the status is negative |
| DnsPoolNs.NotifyDelivers | src/base/net/dns/DnsPoolNsBackend.cpp:523-540 | `notify` empties the queue and calls the live listeners; only when the backend joined the active set does it leave the set and end the resolution |
| DnsPoolNs.ResolveQueues | src/base/net/dns/DnsPoolNsBackend.cpp:83-94 | `resolve` always queues the listener; a fresh cache notifies at once; a resolution already in flight is only joined |
| DnsPoolNs.ResolveRoutes | src/base/net/dns/DnsPoolNsBackend.cpp:96-123 | the routing table of a new resolution, including the cases that join the active set and count the resolution |
| DnsPoolNs.NsLookupFailureRetriesOnce | src/base/net/dns/DnsPoolNsBackend.cpp:134-137 | a failed NS lookup retries once with the fallback DoH server, then falls back to the system resolver |
| DnsPoolNs.SimpleDoHFailureRetriesOnce | src/base/net/dns/DnsPoolNsBackend.cpp:139-141 | a failed simple-DoH query retries once with the fallback server, then falls back |
| DnsPoolNs.LookupTimeoutRetriesOnce | src/base/net/dns/DnsPoolNsBackend.cpp:545-547 | a timed-out NS lookup retries once with the fallback server, then falls back |
| DnsPoolNs.TryNextNsMovesOn | src/base/net/dns/DnsPoolNsBackend.cpp:450-461 | `tryNextNs` always moves past the current name server; past the last one it starts simple DoH from the primary server |
| DnsPoolNs.CallbacksKeepNsIndex | src/base/net/dns/DnsPoolNsBackend.cpp:126-227 | no callback moves the name-server index back |
| DnsPoolNs.StaleAnswersIgnored | src/base/net/dns/DnsPoolNsBackend.cpp:126-204 | an HTTP answer to an idle or falling-back backend changes nothing; a pool answer outside POOL_QUERY only stops the timer |
| DnsPoolNs.SimpleDoHAnswerIsCached | src/base/net/dns/DnsPoolNsBackend.cpp:175-187 | simple-DoH records are delivered, and a `resolve` at the same instant is answered from the cache |
| DnsPoolNs.ResolverGlobals.constructor | src/base/net/dns/DnsPoolNsBackend.cpp:38 | no base domain active, no resolution counted |
| DnsPoolNs.DnsPoolNsBackend.constructor | src/base/net/dns/DnsPoolNsBackend.cpp:62-67 | the member initialisers, beside the shared state |
| DnsPoolNs.DnsPoolNsBackend.Resolve | src/base/net/dns/DnsPoolNsBackend.cpp:81-123 | the new state is `ResolveStep` |
| DnsPoolNs.DnsPoolNsBackend.Reset | src/base/net/dns/DnsPoolNsBackend.cpp:96-105 | the new state is `ResetState`: the target, the name-server list, the cursors and the flags are reset |
| DnsPoolNs.DnsPoolNsBackend.ResetTarget | src/base/net/dns/DnsPoolNsBackend.cpp:96-98 | the host, base domain and status are set, and nothing else changes |
| DnsPoolNs.DnsPoolNsBackend.ResetNameservers | src/base/net/dns/DnsPoolNsBackend.cpp:99-102 | the name-server list and entries are emptied and both cursors zeroed, and nothing else changes |
| DnsPoolNs.DnsPoolNsBackend.ResetFlags | src/base/net/dns/DnsPoolNsBackend.cpp:103-105 | DoH first, not in the active set, no TCP client, and nothing else changes |
| DnsPoolNs.DnsPoolNsBackend.Restart | src/base/net/dns/DnsPoolNsBackend.cpp:108-122 | the new state is `RestartStep` |
| DnsPoolNs.DnsPoolNsBackend.OnHttpData | src/base/net/dns/DnsPoolNsBackend.cpp:126-195 | the new state is `HttpDataStep` |
| DnsPoolNs.DnsPoolNsBackend.OnHttpFailure | src/base/net/dns/DnsPoolNsBackend.cpp:134-148 | the new state is `HttpFailureStep` |
| DnsPoolNs.DnsPoolNsBackend.OnNsLookupData | src/base/net/dns/DnsPoolNsBackend.cpp:153-164 | the new state is `NsLookupDataStep` |
| DnsPoolNs.DnsPoolNsBackend.OnNsResolveData | src/base/net/dns/DnsPoolNsBackend.cpp:165-174 | the new state is `NsResolveDataStep` |
| DnsPoolNs.DnsPoolNsBackend.OnSimpleDoHData | src/base/net/dns/DnsPoolNsBackend.cpp:175-194 | the new state is `SimpleDoHDataStep` |
| DnsPoolNs.DnsPoolNsBackend.OnPoolDoHResponse | src/base/net/dns/DnsPoolNsBackend.cpp:198-227 | the new state is `PoolDoHResponseStep` |
| DnsPoolNs.DnsPoolNsBackend.OnPoolAnswer | src/base/net/dns/DnsPoolNsBackend.cpp:215-226 | the new state is `PoolAnswerStep` |
| DnsPoolNs.DnsPoolNsBackend.OnPoolFailure | src/base/net/dns/DnsPoolNsBackend.cpp:206-213 | the new state is `PoolFailureStep` |
| DnsPoolNs.DnsPoolNsBackend.StartSimpleDoH | src/base/net/dns/DnsPoolNsBackend.cpp:230-251 | the new state is `StartSimpleDoHStep` |
| DnsPoolNs.DnsPoolNsBackend.StartNsLookup | src/base/net/dns/DnsPoolNsBackend.cpp:254-279 | the new state is `StartNsLookupStep` |
| DnsPoolNs.DnsPoolNsBackend.OnNsLookupComplete | src/base/net/dns/DnsPoolNsBackend.cpp:282-296 | the new state is `NsLookupCompleteStep` |
| DnsPoolNs.DnsPoolNsBackend.StartNsResolve | src/base/net/dns/DnsPoolNsBackend.cpp:299-326 | the new state is `StartNsResolveStep` |
| DnsPoolNs.DnsPoolNsBackend.StartPoolQuery | src/base/net/dns/DnsPoolNsBackend.cpp:329-338 | the new state is `StartPoolQueryStep` |
| DnsPoolNs.DnsPoolNsBackend.StartPoolQueryDoH | src/base/net/dns/DnsPoolNsBackend.cpp:341-359 | the new state is `StartPoolQueryDoHStep` |
| DnsPoolNs.DnsPoolNsBackend.StartPoolQueryTcp | src/base/net/dns/DnsPoolNsBackend.cpp:362-402 | the new state is `StartPoolQueryTcpStep` |
| DnsPoolNs.DnsPoolNsBackend.OnTcpQueryComplete | src/base/net/dns/DnsPoolNsBackend.cpp:405-417 | the new state is `TcpQueryCompleteStep` |
| DnsPoolNs.DnsPoolNsBackend.OnPoolQueryComplete | src/base/net/dns/DnsPoolNsBackend.cpp:420-447 | the new state is `PoolQueryCompleteStep` |
| DnsPoolNs.DnsPoolNsBackend.TryNextNs | src/base/net/dns/DnsPoolNsBackend.cpp:450-461 | the new state is `TryNextNsStep` |
| DnsPoolNs.DnsPoolNsBackend.TryTcpWithCachedIp | src/base/net/dns/DnsPoolNsBackend.cpp:464-477 | it tries TCP exactly when the answer carries a peer address; otherwise it changes nothing |
| DnsPoolNs.DnsPoolNsBackend.FallbackToSimpleDoH | src/base/net/dns/DnsPoolNsBackend.cpp:480-486 | the new state is `FallbackToSimpleDoHStep` |
| DnsPoolNs.DnsPoolNsBackend.FallbackToSystem | src/base/net/dns/DnsPoolNsBackend.cpp:489-520 | the new state is `FallbackToSystemStep` |
| DnsPoolNs.DnsPoolNsBackend.OnFallbackResolved | src/base/net/dns/DnsPoolNsBackend.cpp:505-512 | the new state is `FallbackResolvedStep` |
| DnsPoolNs.DnsPoolNsBackend.Notify | src/base/net/dns/DnsPoolNsBackend.cpp:523-540 | the new state is `NotifyStep` |
| DnsPoolNs.DnsPoolNsBackend.OnTimeout | src/base/net/dns/DnsPoolNsBackend.cpp:543-561 | the new state is `TimeoutStep` |
| Dns.WithBackend | src/base/net/dns/Dns.cpp:46-56 | an existing entry is kept; a missing one is created by the choice rule; no other host's entry changes |
| Dns.PoolNsBackendExactly | src/base/net/dns/Dns.cpp:47-55 | the pool-nameserver backend is chosen exactly when TLS is built in, pool-ns is on, and the host is neither an address literal nor a DoH server |
| Dns.DoHServersUseSystemResolver | src/base/net/dns/Dns.cpp:48 | the two DoH servers always get the system resolver |
| Dns.FirstChoiceSticks | src/base/net/dns/Dns.cpp:46 | once a host has a backend, later resolves keep it, under any configuration |
| Dns.Resolver.constructor | src/base/net/dns/Dns.cpp:34-35 | no backends yet |
| Dns.Resolver.Resolve | src/base/net/dns/Dns.cpp:42-61 | the map becomes `WithBackend`, and the request goes to the host's stored backend with the global configuration |
| Http2.ProtocolNames | src/base/net/http2/Http2Client.cpp:38-39 | every name of a parsed ALPN list is 1 to 255 octets long |
| Http2.ProtocolNamesRoundTrip | src/base/net/http2/Http2Client.cpp:38-39 | an encoded protocol list reads back as the names |
| Http2.AlpnOfferIsH2 | src/base/net/http2/Http2Client.cpp:38-39 | the client offers exactly one protocol, "h2" |
| Http2.VerifyAlpnAcceptsOffered | src/base/net/http2/Http2Client.cpp:117-125 | `verifyAlpn` accepts exactly the protocols offered, and refuses an empty selection |
| Http2.Chunk | src/base/net/http2/Http2Client.cpp:197-203 | a read copies `min(length, remaining)` octets, contiguous with what was sent before |
| Http2.ReadStep | src/base/net/http2/Http2Client.cpp:192-210 | the cursor advances by what was copied, EOF is flagged exactly at the end of the body, and nothing else changes |
| Http2.ReadsCopyBody | src/base/net/http2/Http2Client.cpp:192-210 | successive reads copy the body in order, without gaps or repeats, up to what was asked for |
| Http2.ReadsSendWholeBody | src/base/net/http2/Http2Client.cpp:197-207 | reads that ask for at least the body's length send the whole body |
| Http2.EmptyReadKeepsCursor | src/base/net/http2/Http2Client.cpp:197-209 | a zero-length read copies nothing and moves nothing |
| Http2.ReceiveCollectsOwnStream | src/base/net/http2/Http2Client.cpp:213-241 | the response body is exactly the data of the client's own stream, and the status is that stream's last `:status` on a HEADERS frame |
| Http2.OtherStreamsIgnored | src/base/net/http2/Http2Client.cpp:213-250 | callbacks for other streams change nothing |
| Http2.CleanClosePublishes | src/base/net/http2/Http2Client.cpp:259-269 | a clean close publishes the collected status and body, hands them once to a live listener, and closes with 0 |
| Http2.ErrorCloseDeliversNothing | src/base/net/http2/Http2Client.cpp:252-257 | a close with an error publishes nothing and closes with `UV_EPROTO` |
| Http2.Http2Client.constructor | src/base/net/http2/Http2Client.h:61-65 | the stream, the request body, the cursor at 0, no response yet |
| Http2.Http2Client.OnDataSourceRead | src/base/net/http2/Http2Client.cpp:192-210 | the new state and copy are `ReadStep`; it returns how many octets, exactly the body's next octets |
| Http2.Http2Client.OnHeader | src/base/net/http2/Http2Client.cpp:213-228 | the new state is `HeaderStep` |
| Http2.Http2Client.OnDataChunkRecv | src/base/net/http2/Http2Client.cpp:231-241 | the new state is `ChunkStep` |
| Http2.Http2Client.OnStreamClose | src/base/net/http2/Http2Client.cpp:244-272 | the new state is `CloseStep` |
| EmbedHtml.HexDigit | scripts/embed_html.py:31 | a lower-case hexadecimal digit |
| EmbedHtml.DigitRoundTrip | scripts/embed_html.py:31 | every digit reads back as its value |
| EmbedHtml.HexLiteral | scripts/embed_html.py:31 | "0x" and two digits, high nibble first, that read back as the byte |
| EmbedHtml.Literals | scripts/embed_html.py:31 | one literal per byte of the row |
| EmbedHtml.RowTexts | scripts/embed_html.py:28-32 | one line per row |
| EmbedHtml.RowsCover | scripts/embed_html.py:29-30 | there are ceil(n / 16) rows, and together they are the data |
| EmbedHtml.RowsAt | scripts/embed_html.py:29-30 | row `k` is bytes 16k up to 16k + 16, or up to the end |
| EmbedHtml.RowsFull | scripts/embed_html.py:29-30 | every row but the last holds sixteen bytes |
| EmbedHtml.RenderLines | scripts/embed_html.py:28-32 | the loop produces the line of each row, in order |
| EmbedHtml.HeaderText | scripts/embed_html.py:34-53 | the header is the fixed opening, the array body and the fixed closing |
| EmbedHtml.ReadOneLiteral | scripts/embed_html.py:31 | a literal reads back as its byte |
| EmbedHtml.ReadJoinedLiterals | scripts/embed_html.py:31 | a row's literals, joined by ", ", read back as the row |
| EmbedHtml.ReadJoinedRows | scripts/embed_html.py:34 | the lines joined by ",\n" read back as all the bytes |
| EmbedHtml.JoinRowsUnfold | scripts/embed_html.py:32-34 | the joined lines are the first line, then ",\n" and the rest |
| EmbedHtml.HeaderRoundTrip | scripts/embed_html.py:28-53 | the array between the fixed opening and closing reads back as exactly the compressed bytes |
| EmbedHtml.HeaderInjective | scripts/embed_html.py:28-53 | different compressed bytes give different headers |
| EmbedHtml.RatioBounds | scripts/embed_html.py:60 | an empty input gives ratio 0 without a division; a non-empty output that is not larger gives a ratio from 0 up to (not including) 100 |
| EmbedHtml.Embed | scripts/embed_html.py:8-62 | a missing input gives exit code 1 and writes nothing; otherwise the header of the compressed input is written, with exit code 0 and the sizes and ratio |

## Left out

- Logging (`LOG_INFO`, `LOG_DEBUG`, `LOG_ERR`) everywhere, including the `via` text of `onPoolQueryComplete`: it changes no state.
- Event-loop handles, memory management and object lifetimes:
  - libuv handles, their allocation and `delete` callbacks;
  - `shared_ptr` and `weak_ptr` lifetimes, including the destructors;
  - the `PoolDoHListener` and `FallbackListener` objects.
  The model routes their callbacks straight to the backend methods, and a listener's liveness is the input set `live`.
- The fetch itself (`fetch`, `FetchRequest`, HTTP headers, port 443, `/dns-query`): a DoH request is the recorded action `DoHQuery` or `NsQuery`. The HTTPS client beyond the four callbacks and `verifyAlpn` is not part of this model. That includes the TLS handshake, session setup, request submission and `sendPendingData`.
- `rand()` in `buildQuery`: the query ID is a parameter.
- `Chrono::currentMSecsSinceEpoch`: the clock is the input `now`.
- `uv_inet_pton`, `uv_inet_ntop`, `atoi` and `gzip.compress` are function parameters, so nothing is assumed about them.
- `String::split` is not part of this model: it is taken to split at every dot and keep empty fields. Only hosts with an empty field depend on this: a doubled, leading or trailing dot, as in "example.com." or "a..b". Every proved round trip is about names of non-empty labels, where a split that drops empty fields would give the same result.
- `Json::getUint`, `Json::getBool` and `Json::getString` are not part of this model: each is taken to return the member when it has the right type, and the default otherwise.
- `DnsRecords` is not part of this model: it is taken to hold the parsed addresses in order, and to be non-empty exactly when some address was kept. `parseAddressRecords`'s linking of `addrinfo` entries, lines 233-239, is therefore left out.
- `DnsUvBackend` and the `Dns` methods other than `resolve` (`set`, `isResolving`, `beginResolving`, `endResolving`) are not part of this model. The system resolution is the recorded action `SystemResolve`, and the shared counter is a field.
- `UV_EPROTO` is represented by the constant -71, its Linux value.
- The moved-from `m_responseBody` after a clean close is taken to be empty.
- `embed_html.py` details:
  - the `argv` defaults and paths;
  - the atomic write through a `.tmp` file, and newline translation;
  - exceptions other than a missing input: any other read error, or a failing `open` of the `.tmp` file or `os.replace`, propagates uncaught in the script, and the model's `Embed` does not cover it;
  - the `%.1f` rounding of the printed ratio, which is returned as an exact real.
- Dns.Resolver.Resolve: the backend object is represented by its kind, and the call it receives is recorded in `dispatched` rather than performed. The pool-nameserver backend's own behaviour is `DnsPoolNs.DnsPoolNsBackend.Resolve`.
- DnsPoolNs.DnsPoolNsBackend.Resolve: the public methods promise only the transition. The backend invariant is stated on the step functions, so a caller obtains it through them.
- Strings are the program's byte strings, one character per octet: a host is the sequence of its octets (its UTF-8 encoding, when it is not ASCII). Label lengths and the 255-character cut therefore count octets, as the source does. Characters above 255 do not stand for anything; `ByteOf` reduces them modulo 256.
- DnsMessage.AnswerAt: under both label rules, the ten octets of TYPE, CLASS, TTL and RDLENGTH are checked after the owner name. The code as written checks before the name and can then read past the end of the message (Findings row 1). That read is undefined behaviour in C++ and has no defined result to model.
- DnsMessage.ReadAnswer: has the same corrected guard as `AnswerAt`, for the same reason.
- DnsMessage.ReadAddress: has the same corrected guard as `AnswerAt`, for the same reason.
- DnsMessage.Response: under `StallWhenFull` this is `parseResponse` as written, except for the corrected guard of `AnswerAt`.
- DnsMessage.ParseResponse: likewise, except for the corrected guard of `ReadAnswer`.
- DnsMessage.AddressRecords: under `StallWhenFull` this is `parseAddressRecords` as written, except for the corrected guard of `AnswerAt`.
- DnsMessage.ParseAddressRecords: likewise, except for the corrected guard of `ReadAddress`.
- DnsTcp.Examined parses with the corrected rule `SkipWhenFull`, and so do `DnsTcp.ReceivedFollowsVerdict`, `DnsTcp.ChunkedFrameCompletes` and `DnsTcp.DnsTcpClient.Examine`. For a response with a question or owner name over 255 characters, the code as written fails where these succeed (`DnsMessage.OverlongQuestionRejectedAsWritten`).
- DnsPoolNs.NsLookupDataStep, `NsResolveDataStep`, `SimpleDoHDataStep`, `PoolAnswerStep` and the methods that follow them parse with the corrected rule `SkipWhenFull`. The same difference applies.
- DnsName.DecodeName: on failure, the `offset` the code leaves behind is not stated, because both callers return at once without reading it.

## Findings

| source | as written | input that shows it | evidently intended | confidence | as-written member | corrected member |
|---|---|---|---|---|---|---|
| src/base/net/dns/DnsWireFormat.cpp:103-115 | The check `offset + 10 > len` runs before `decodeName` moves `offset` past the owner name. TYPE and RDLENGTH are then read at the new offset, with no further length check. The same happens at lines 181-193. | A 23-octet response: a header with QDCOUNT 0 and ANCOUNT 1, the owner name "aaaaaaaa" (10 octets), and one more octet. TYPE is read from octets 22-23 and RDLENGTH from octets 30-31, both past the end. | The ten octets of TYPE, CLASS, TTL and RDLENGTH are checked after the owner name, so a truncated answer is reported malformed. | high (not executed) | DnsMessage.AnswerGuardOverreadsAsWritten | DnsMessage.AnswerAt |
| src/base/net/dns/DnsWireFormat.cpp:310-312 | Once the 256-octet buffer is full, the copy loop stops advancing `pos`. The rest of the label is then read as further labels. | The name of five 63-character labels of 'a' (319 characters), which `encodeName` accepts. After four labels the buffer is full; the next octet, 'a' (97), is taken for a label length that runs past the 321-octet message, so the name is rejected. `DnsMessage.OverlongQuestionRejectedAsWritten` shows the same name, echoed as a response's question, failing `parseResponse` and `parseAddressRecords`. | The read position steps over the whole label whatever the buffer holds, and the name is kept as its first 255 characters. | high (not executed) | DnsName.OverlongNameRejectedAsWritten | DnsName.SkipTruncatesOverlong |
