# shelly core, modelled in Dafny

shelly is a system daemon with an LLM agent at its centre. A command-line client sends the
user's text over UDP. The daemon's communication server deduplicates and acknowledges each
request, then hands it to the agent loop. The agent asks the brain, an HTTP Messages API client
with retry and backoff, what to do. It runs the bash tool the brain asks for and keeps a bounded
journal of what happened in its memory. This project models that core and proves properties of
it:

- **Wire format** (`Bytes`, `CommTypes`, `PayloadCodec`, `Protocol`)
  - A 5-byte header: a type byte and a big-endian sequence number.
  - The request, ACK and response encodings, and the header checks.
- **Server** (`Server`, `ServerProperties`)
  - The per-client deduplication table: capacity eviction of the oldest entry, the cached-reply
    resend, the ACK for a request still in progress, forwarding and reply caching, and the TTL
    cleanup.
  - The receive loop.
- **CLI client** (`Cli`, `Interop`)
  - Sequence numbering, with wrap-around.
  - The send / wait-for-ACK / wait-for-response retry loop.
  - Proofs that client and server agree on every packet.
- **Memory** (`Memory`, `MemoryStorage`, `Text`)
  - The journal capped at 100 entries, and the context text built from identity, topology and
    the last ten entries.
  - The storage variant: an empty identity contributes no section; recall and its timestamped
    context.
- **Brain** (`BrainTypes`, `Builder`, `BrainClient`)
  - Message and stop-reason types, and the request builder with its two refusals.
  - The HTTP status classification, the endpoint URL, and the retry loop with capped
    exponential backoff.
- **Executor** (`Json`, `ToolExecutor`)
  - The bash tool's definition, input parsing and output layout.
  - The tool registry and `execute`.
- **Agents** (`AgentCommon`, `AgentCore`, `Agent`, `LoopAgent`, `Inference`)
  - The tool-use loop of `handle`, `handle_user_request` and `shutdown`, shared by
    src/agent/mod.rs and src/agent/loop_.rs.
  - The two different `run_init`s of those files.
  - The recursive `inference_loop` of src/agent/inference.rs.

Everything outside the program is a parameter:

- The brain is an oracle from (inference index, request) to a reply.
- A tool run is an oracle from (execution index, tool, input) to a result.
- Whether a surrounding `tokio::time::timeout` fires is a boolean, or a per-inference predicate
  for the loop of loop_.rs.
- The clock is a `now` argument.
- The socket is a list of receive events.
- A spawned process is a function from command to output.

Each stateful object is a Dafny class: the server `Comm`, the CLI `Client`, both `Memory`s, the
`Executor` and the `AgentLoop`. The methods that loop are proved equal to a specification
function, such as `HandleFrom`, `InitFrom`, `Loop` or `Attempts`. The properties the source
promises are then proved about those functions.

The server's receive loop only logs an error `handle_packet` returns, `ChannelClosed` included,
and keeps running; only a receive error ends it.

## Model

| member | source | states |
|---|---|---|
| Bytes.Truncate | src/bin/shelly-cli.rs:166 | a receive into a fixed buffer keeps a prefix of the datagram, of length min(len, capacity) |
| Bytes.BigEndian | src/comm/protocol.rs:10-30 | the sequence number is written as 4 bytes whose big-endian value is the number |
| Bytes.BigEndianRoundTrip | src/comm/protocol.rs:33-46 | reading back the 4 written bytes gives the sequence number |
| Bytes.BigEndianOfValue | src/comm/protocol.rs:33-46 | any 4 bytes are the encoding of the value read from them |
| Bytes.BigEndianInjective | src/comm/protocol.rs:10-30 | distinct sequence numbers have distinct encodings |
| CommTypes.ToU8 | src/comm/types.rs:8-15 | message types are the bytes 1 to 3 |
| CommTypes.FromU8 | src/comm/types.rs:18-25 | a byte names a type exactly when it is 1, 2 or 3, and then names the type with that byte |
| CommTypes.FromU8OfToU8 | src/comm/types.rs:18-25 | decoding a type's byte gives the type back |
| CommTypes.ToU8Injective | src/comm/types.rs:8-15 | distinct types have distinct bytes |
| CommTypes.NewResponse | src/comm/types.rs:65-70 | a normal reply carries the text and is not an error |
| CommTypes.ErrorResponse | src/comm/types.rs:72-77 | an error reply carries the text and is flagged as an error |
| PayloadCodec.CharBytes | src/comm/protocol.rs:217-237 | every character takes three bytes |
| PayloadCodec.CharBytesValue | src/comm/protocol.rs:217-237 | the three bytes of a character are its code point, big-endian |
| PayloadCodec.EncodeChars | src/comm/protocol.rs:157-169 | text of n characters takes 3n bytes |
| PayloadCodec.CharsRoundTrip | src/comm/protocol.rs:217-237 | any text, special characters included, decodes back to itself |
| PayloadCodec.EncodeRequest | src/comm/types.rs:30-33 | a request body takes one tag byte plus its text |
| PayloadCodec.EncodeResponse | src/comm/types.rs:37-42 | a response body takes a tag byte, an error flag byte and its text |
| PayloadCodec.DecodeRequest | src/comm/protocol.rs:49-52 | an empty payload is refused |
| PayloadCodec.DecodeResponse | src/comm/protocol.rs:56-59 | a payload shorter than its two leading bytes is refused |
| PayloadCodec.RequestRoundTrip | src/comm/protocol.rs:77-91 | a request payload decodes back to itself |
| PayloadCodec.ResponseRoundTrip | src/comm/protocol.rs:107-139 | a response payload decodes back to itself, error flag included |
| PayloadCodec.BodiesAreDistinguished | src/comm/protocol.rs:49-59 | a request body never decodes as a response, nor a response body as a request |
| PayloadCodec.RequestRoundTripAll | src/comm/protocol.rs:77-91 | the request round trip holds for every payload |
| PayloadCodec.ResponseRoundTripAll | src/comm/protocol.rs:107-123 | the response round trip holds for every payload |
| Protocol.Packet | src/comm/protocol.rs:10-30 | a packet is the type byte, the big-endian sequence, then the body if there is one, and is exactly 5 bytes without a body |
| Protocol.EncodePacket | src/comm/protocol.rs:10-30 | the buffer-building method produces exactly `Packet` |
| Protocol.DecodeHeader | src/comm/protocol.rs:33-46 | under 5 bytes is "Packet too short"; an unknown type byte is a decode error; otherwise the header decodes to the type with that byte and the sequence with those 4 bytes |
| Protocol.DecodeRequestPayload | src/comm/protocol.rs:49-52 | failures are decode errors, and every encoded request decodes to itself |
| Protocol.DecodeResponsePayload | src/comm/protocol.rs:56-59 | failures are decode errors, and every encoded response decodes to itself |
| Protocol.AckBytes | src/comm/protocol.rs:62-64 | an ACK is a bare 5-byte header |
| Protocol.EncodeRequestAck | src/comm/protocol.rs:95-103 | the ACK is 5 bytes: 0x02, then the big-endian sequence |
| Protocol.EncodeResponse | src/comm/protocol.rs:67-69 | a response packet starts with 0x03 and its payload decodes to the response it was built from |
| Protocol.HeaderRoundTrip | src/comm/protocol.rs:77-91 | every packet's header decodes to its own type and sequence |
| Protocol.HeaderIgnoresPayload | src/comm/protocol.rs:33-46 | header decoding depends on the first five bytes only |
| Protocol.BareHeaderDecodes | src/comm/protocol.rs:95-103 | any 5 bytes with a known type byte decode |
| Protocol.RequestPacketRoundTrip | src/comm/protocol.rs:77-91 | a request packet's payload decodes to the request it carries |
| Protocol.ResponsePacketRoundTrip | src/comm/protocol.rs:107-123 | a response packet's payload decodes to the response it carries |
| Protocol.Seq256Layout | src/comm/protocol.rs:196-213 | sequence 256 is written 00 00 01 00 |
| Server.OldestExists | src/comm/server.rs:157-170 | a non-empty table always has an entry of minimal age to evict |
| Server.Retain | src/comm/server.rs:333-335 | an entry survives cleanup exactly when it is younger than the TTL, and survives unchanged |
| Server.Cleaned | src/comm/server.rs:328-341 | a client stays exactly when some of its entries survive, and keeps exactly those |
| Server.EvictOldest | src/comm/server.rs:157-170 | at or over capacity, one oldest entry is removed; below capacity, nothing changes |
| Server.Respond | src/comm/server.rs:175-325 | one request's lookup, classification, sends and forward amount exactly to `Dispatch` |
| Server.ForwardRequest | src/comm/server.rs:221-312 | a new request's ACK, forward, reply and caching amount exactly to `Forward` |
| Server.Comm.constructor | src/comm/server.rs:46-66 | the server starts with an empty dedup table and the configured limits |
| Server.Comm.HandleRequest | src/comm/server.rs:145-325 | only the sender's table changes; it becomes the table after eviction, then dispatch; the result, sends and forward are dispatch's |
| Server.Comm.HandlePacket | src/comm/server.rs:98-142 | a short, oversized or undecodable packet is refused and a non-request is ignored, all without a send or a table change; a request goes to `HandleRequest` with its decoded sequence |
| Server.Comm.CleanupDedup | src/comm/server.rs:328-341 | after cleanup the table is exactly `Cleaned` of the old one |
| Server.Comm.Receive | src/comm/server.rs:75-81 | a datagram's replies all go to its sender, and a forwarded request carries the sender's address |
| Server.AddressTo | src/comm/server.rs:183-308 | the packets are sent, in order and each once, to the client being answered |
| Server.ForwardedFromClient | src/comm/server.rs:232-236 | a forwarded request's source is the client that sent it |
| Server.Comm.Run | src/comm/server.rs:69-95 | the loop ends with the first receive error, and every send and every forward goes to a peer that sent a datagram |
| Server.DropEmptyIsCleaned | src/comm/server.rs:338 | dropping the emptied clients after retaining completes the cleanup |
| Server.BoundedUpdate | src/comm/server.rs:157-170 | storing a non-empty table within the bound keeps every client's table within it |
| Server.CleanedBounded | src/comm/server.rs:328-341 | cleanup keeps every client's table non-empty and within the bound |
| Server.RetainShrinks | src/comm/server.rs:333-335 | cleanup never grows a table |
| Server.DispatchKeys | src/comm/server.rs:202-208 | after a request its sequence is in the table, and no other key is added or removed |
| Server.CapacityKept | src/comm/server.rs:157-208 | eviction followed by an insert keeps a client's table within `max(capacity, 1)` |
| ServerProperties.DuplicateResendsCachedResponse | src/comm/server.rs:175-185 | a retry of an answered request resends the cached bytes and changes nothing |
| ServerProperties.DuplicateInProgressAcked | src/comm/server.rs:186-199 | a retry of an unanswered request gets only an ACK and changes nothing |
| ServerProperties.NewRequestAckedThenAnswered | src/comm/server.rs:202-296 | a new well-formed request is ACKed first, then answered, and is forwarded unless the channel is closed |
| ServerProperties.ReplyDeliveredAndCached | src/comm/server.rs:245-270 | a reply is sent as the response packet and cached under its sequence with the reply's time |
| ServerProperties.OnlyRepliesAreCached | src/comm/server.rs:245-312 | a cached response is only ever stored for a reply that arrived |
| ServerProperties.OtherEntriesUntouched | src/comm/server.rs:145-325 | a request changes no other sequence's entry |
| ServerProperties.RetryAfterReplyIsIdempotent | src/comm/server.rs:175-185 | a retry after a reply resends exactly the bytes sent the first time, without forwarding again |
| ServerProperties.UndecodableRequestBlocksRetries | src/comm/server.rs:202-211 | an undecodable request still takes its sequence, so its retries are only ACKed |
| ServerProperties.EvictionRemovesOneOldest | src/comm/server.rs:157-170 | eviction removes only oldest entries, at most one, and exactly one at or over capacity |
| ServerProperties.YoungerEntrySurvivesEviction | src/comm/server.rs:157-170 | an entry with an older one beside it survives eviction |
| ServerProperties.RetryOfOldestAtCapacityIsReprocessed | src/comm/server.rs:157-240 | at capacity, a retry of the strictly oldest request is evicted first and so is forwarded again |
| ServerProperties.CleanupForgetsExactlyExpired | src/comm/server.rs:328-341 | cleanup keeps an entry exactly when it is younger than the TTL |
| ServerProperties.RetryAfterExpiryIsNew | src/comm/server.rs:328-341 | a retry that arrives after its entry expired is treated as a new request and forwarded |
| Cli.NextSeq | src/bin/shelly-cli.rs:118 | the counter increments, and wraps from 2^32-1 to 0 |
| Cli.RequestPacket | src/bin/shelly-cli.rs:131-133 | the request is 0x01, the big-endian sequence, then the encoded text |
| Cli.AckResult | src/bin/shelly-cli.rs:165-195 | an ACK is accepted exactly when it comes from the target with type 0x02 and the expected sequence; only a receive error is an error |
| Cli.ResponseResult | src/bin/shelly-cli.rs:198-241 | a payload is returned exactly for a packet from the target, of at least 5 bytes, of type 0x03, with the expected sequence and a decodable body from the 65536-byte buffer; otherwise each failed check has its own error, in code order: unexpected sender, too short, not a response, sequence mismatch, the decode error, a receive error passed on, a timeout |
| Cli.Attempts | src/bin/shelly-cli.rs:136-161 | the retry loop sends at most `max_retries` packets |
| Cli.Exchange | src/bin/shelly-cli.rs:136-161 | the loop's result and number of sends are exactly `Attempts` of the attempt function, and every send is the same packet |
| Cli.Client.constructor | src/bin/shelly-cli.rs:106-114 | numbering starts at 1 |
| Cli.Client.SendRequest | src/bin/shelly-cli.rs:117-162 | takes one sequence number, and its result and number of sends are exactly `Attempts`; every send is the same packet |
| Cli.SuccessComesFromMatchingResponse | src/bin/shelly-cli.rs:136-156 | a successful exchange's payload is the response that followed an accepted ACK of the same sequence |
| Cli.SilentServerExhaustsRetries | src/bin/shelly-cli.rs:158-161 | a silent server costs exactly `max_retries` sends and ends in "shelly not responding" |
| Cli.NoRetriesNoSend | src/bin/shelly-cli.rs:136-161 | with zero retries nothing is sent and the request times out |
| Cli.SeqAfter | src/bin/shelly-cli.rs:118 | after n requests the counter has advanced by n modulo 2^32 |
| Cli.DistinctSequences | src/bin/shelly-cli.rs:118 | fewer than 2^32 consecutive requests never reuse a sequence number |
| Interop.CliRequestIsServerRequest | src/bin/shelly-cli.rs:131-133 | the client's request packet is the protocol's request packet |
| Interop.ServerDecodesCliRequest | src/comm/server.rs:98-142 | the server decodes the client's packet to a request with the client's sequence and text |
| Interop.CliAcceptsServerAck | src/bin/shelly-cli.rs:165-195 | the client accepts the server's ACK for its sequence |
| Interop.CliRejectsOtherAck | src/bin/shelly-cli.rs:165-195 | the client ignores an ACK for another sequence |
| Interop.CliDecodesServerResponse | src/bin/shelly-cli.rs:198-241 | the client decodes the server's response packet to the payload it was built from |
| Interop.CliRejectsOtherResponse | src/bin/shelly-cli.rs:225-230 | a response for another sequence is a "Sequence mismatch" |
| Text.NatToString | src/agent/mod.rs:449-458 | decimal digits without a leading zero |
| Text.NatToStringValue | src/agent/mod.rs:449-458 | the digits read back as the number |
| Text.NatToStringInjective | src/agent/mod.rs:449-458 | distinct numbers print differently |
| Text.IntToString | src/executor/bash.rs:85-88 | a negative number prints as '-' and its magnitude |
| Text.Join | src/memory/mod.rs:114 | joining nothing is empty and joining one part is that part |
| Text.JoinSnoc | src/memory/mod.rs:114 | joining one more part appends the separator and that part |
| Text.JoinStartsWithFirst | src/memory/mod.rs:114 | a join starts with its first part |
| Text.TrimEnd | src/brain/client.rs:120 | the result is a prefix with no trailing copy of the character, and only copies of it were removed |
| Memory.RenderShowsKind | src/memory/mod.rs:123-137 | every entry's display line names its kind, which can be read back from the line |
| Memory.KeepLast | src/memory/mod.rs:46-52 | the capped journal is the last min(len, cap) entries |
| Memory.PushBounded | src/memory/mod.rs:46-52 | push-then-drop-the-front gives exactly the last `cap` entries of journal + entry |
| Memory.KeepLastAppend | src/memory/mod.rs:46-52 | below the cap an entry is appended; at the cap the oldest is dropped |
| Memory.KeepLastTwice | src/memory/mod.rs:46-52 | capping after each append equals capping once at the end |
| Memory.Reverse | src/memory/mod.rs:103-112 | reversal maps position i to position n-1-i |
| Memory.Take | src/memory/mod.rs:103-112 | take keeps a prefix of length min(len, n) |
| Memory.RecentIsLastTen | src/memory/mod.rs:103-112 | reverse, take 10, reverse is the last ten entries in order |
| Memory.HistoryLines | src/memory/mod.rs:103-112 | one "- " line per entry, in order |
| Memory.ContextPartsLayout | src/memory/mod.rs:91-115 | the context parts are identity, then topology if any, then history if any, each tagged by its heading |
| Memory.Memory.constructor | src/memory/mod.rs:37-43 | a new memory has the identity and an empty journal and topology |
| Memory.Memory.Add | src/memory/mod.rs:46-52 | the journal becomes the last 100 of old journal + entry; identity and topology stay |
| Memory.Memory.AddSystemInfo | src/memory/mod.rs:55-57 | appends a system-info entry under the cap |
| Memory.Memory.AddInteraction | src/memory/mod.rs:60-65 | appends the query/response entry under the cap |
| Memory.Memory.AddToolResult | src/memory/mod.rs:68-73 | appends the tool-result entry under the cap |
| Memory.Memory.AddObservation | src/memory/mod.rs:76-78 | appends an observation entry under the cap |
| Memory.Memory.AddError | src/memory/mod.rs:81-83 | appends an error entry under the cap |
| Memory.Memory.AddTopology | src/memory/mod.rs:86-88 | appends to the topology, uncapped, and leaves the journal alone |
| Memory.Memory.Context | src/memory/mod.rs:91-115 | the context is the identity section, then the topology section when there is topology and the history section when there is a journal, each after a blank line (`LaidOut`) |
| Memory.JoinedSections | src/memory/mod.rs:91-115 | joining the sections with "\n\n" gives exactly that case-by-case layout |
| MemoryStorage.DefaultConfig | src/memory/config.rs:19-28 | top-k 5, 3 cognition rounds, the "default" embedding model |
| MemoryStorage.Zeros | src/memory/storage.rs:159 | k zero digits |
| MemoryStorage.ZeroPad | src/memory/storage.rs:159 | zero padding yields digits of the requested width whose value is the number |
| MemoryStorage.DigitCount | src/memory/storage.rs:159 | a number below 10^w has at most w digits |
| MemoryStorage.TimestampRoundTrip | src/memory/storage.rs:159 | `%Y-%m-%d %H:%M:%S` is 19 characters with separators at fixed places, and each field reads back as its value |
| MemoryStorage.RecallLines | src/memory/storage.rs:158-161 | one "- [time] content" line per recalled entry, in order |
| MemoryStorage.ContextFromRecall | src/memory/storage.rs:151-164 | empty exactly for no entries; otherwise it starts with "## Relevant Memory" |
| MemoryStorage.RecallLinesSnoc | src/memory/storage.rs:158-161 | one more entry adds one more line at the end |
| MemoryStorage.ContextFromRecallSnoc | src/memory/storage.rs:151-164 | one more entry appends a newline and its line |
| MemoryStorage.ContextFromRecallSingle | src/memory/storage.rs:151-164 | a single entry gives the heading, a newline and its line |
| MemoryStorage.Memory.constructor | src/memory/storage.rs:34-42 | empty store, journal and topology, the identity and the default config |
| MemoryStorage.Memory.Add | src/memory/storage.rs:171-177 | the journal becomes the last 100 of old journal + entry; nothing else changes |
| MemoryStorage.Memory.AddSystemInfo | src/memory/storage.rs:181-183 | appends a system-info entry under the cap; nothing else changes |
| MemoryStorage.Memory.AddInteraction | src/memory/storage.rs:186-191 | appends the interaction under the cap; nothing else changes |
| MemoryStorage.Memory.AddToolResult | src/memory/storage.rs:194-199 | appends the tool result under the cap; nothing else changes |
| MemoryStorage.Memory.AddObservation | src/memory/storage.rs:202-204 | appends the observation under the cap; nothing else changes |
| MemoryStorage.Memory.AddError | src/memory/storage.rs:207-209 | appends the error under the cap; nothing else changes |
| MemoryStorage.Memory.AddTopology | src/memory/storage.rs:213-215 | appends to the topology; nothing else changes |
| MemoryStorage.Memory.SetIdentity | src/memory/storage.rs:254-256 | replaces the identity; nothing else changes |
| MemoryStorage.Memory.IdentityParts | src/memory/storage.rs:222-224 | an identity section exists exactly when the identity is non-empty |
| MemoryStorage.Memory.Context | src/memory/storage.rs:218-244 | a non-empty identity leads and the rest is laid out as in the journal memory; with none, the topology leads followed by the history after a blank line, or the history alone, or the context is empty |
| MemoryStorage.ContextAgreesWithJournalMemory | src/memory/storage.rs:218-244 | with an identity set, the context equals the journal memory's context of the same fields (src/memory/mod.rs:91-115) |
| MemoryStorage.Memory.Recall | src/memory/storage.rs:110-135 | nothing from an empty store; otherwise the first min(top_k, n) entries in ranking order, all taken from the store |
| BrainTypes.DefaultRole | src/brain/types.rs:8-12 | the default role is `User` |
| BrainTypes.UserText | src/brain/types.rs:23-30 | a user message with one text block |
| BrainTypes.AssistantText | src/brain/types.rs:32-39 | an assistant message with one text block |
| BrainTypes.StopReasonFromStr | src/brain/types.rs:86-104 | a parsed stop reason prints back as the parsed string |
| BrainTypes.StopReasonRoundTrip | src/brain/types.rs:97-104 | every stop reason's string parses back to it |
| BrainTypes.AsStrInjective | src/brain/types.rs:97-104 | distinct stop reasons have distinct strings |
| Builder.New | src/brain/builder.rs:21-35 | the model, no messages, the default token limit and every option unset |
| Builder.RequestBuilder.Push | src/brain/builder.rs:42-66 | appends one message and changes nothing else |
| Builder.RequestBuilder.WithSystem | src/brain/builder.rs:37-40 | sets the system prompt only |
| Builder.RequestBuilder.UserText | src/brain/builder.rs:42-45 | appends a user text message only |
| Builder.RequestBuilder.UserContent | src/brain/builder.rs:47-53 | appends a user message with the blocks only |
| Builder.RequestBuilder.AssistantText | src/brain/builder.rs:55-58 | appends an assistant text message only |
| Builder.RequestBuilder.AssistantContent | src/brain/builder.rs:60-66 | appends an assistant message with the blocks only |
| Builder.RequestBuilder.UserToolResult | src/brain/builder.rs:68-83 | appends a user message holding one tool result only |
| Builder.RequestBuilder.WithTools | src/brain/builder.rs:85-88 | replaces the tool list only |
| Builder.RequestBuilder.WithTool | src/brain/builder.rs:90-96 | appends one tool, starting a list if none was set |
| Builder.RequestBuilder.WithMaxTokens | src/brain/builder.rs:98-101 | sets the token limit only |
| Builder.RequestBuilder.WithTemperature | src/brain/builder.rs:103-106 | sets the temperature only |
| Builder.RequestBuilder.WithTopP | src/brain/builder.rs:108-111 | sets top-p only |
| Builder.RequestBuilder.WithTopK | src/brain/builder.rs:113-116 | sets top-k only |
| Builder.RequestBuilder.WithStopSequences | src/brain/builder.rs:118-121 | sets the stop sequences only |
| Builder.RequestBuilder.WithStream | src/brain/builder.rs:123-126 | sets the stream flag only |
| Builder.RequestBuilder.WithMetadata | src/brain/builder.rs:128-131 | sets the metadata only |
| Builder.RequestBuilder.Build | src/brain/builder.rs:133-156 | refuses no messages and a non-user first message with their texts; succeeds exactly otherwise, with every field carried over |
| Builder.FreshBuilderRefused | src/brain/builder.rs:134-136 | a fresh builder never builds |
| Builder.AppendKeepsBuildable | src/brain/builder.rs:133-156 | appending to a buildable request keeps it buildable and appends to its messages |
| Builder.FirstMessageDecides | src/brain/builder.rs:139-141 | only the first message's role decides whether a non-empty request builds |
| Builder.SettersPassThrough | src/brain/builder.rs:37-116 | the setters reach the built request unchanged |
| Builder.ToolsOneByOne | src/brain/builder.rs:85-96 | adding tools one by one equals setting the list |
| BrainClient.MessagesUrl | src/brain/client.rs:120 | the URL ends in "/v1/messages"; before it comes a prefix of the endpoint that does not end in '/', and everything dropped from the endpoint is '/' |
| BrainClient.UrlIgnoresTrailingSlash | src/brain/client.rs:120 | a trailing slash on the endpoint does not change the URL |
| BrainClient.UrlKeepsEndpoint | src/brain/client.rs:120 | an endpoint without a trailing slash is kept as it is |
| BrainClient.Classify | src/brain/client.rs:119-169 | each HTTP outcome maps to its error: network, 401, 400, 402, 5xx, other status; success only for a 2xx with a readable body |
| BrainClient.Pow2FitsBelow64 | src/brain/client.rs:101-103 | 2^k fits in a u64 exactly when k < 64 |
| BrainClient.SaturatingPow2 | src/brain/client.rs:101-103 | exactly 2^k below exponent 64, and u64::MAX from 64 on |
| BrainClient.ClampedProduct | src/brain/client.rs:101-103 | the saturating product is the true product when it fits and u64::MAX otherwise |
| BrainClient.SaturatedProduct | src/brain/client.rs:101-103 | the saturating product is the true product or the maximum |
| BrainClient.Delay | src/brain/client.rs:101-103 | the backoff is base times 2^(retries-1), capped at 30000 ms |
| BrainClient.DelayMonotone | src/brain/client.rs:101-103 | a later retry never waits less |
| BrainClient.DelayAsWritten | src/brain/client.rs:101-103 | the delay as the code computes it never exceeds 30000 ms |
| BrainClient.DelayAsWrittenAgreesWithoutOverflow | src/brain/client.rs:101-103 | the code agrees with the intended delay while the product fits in u64 |
| BrainClient.DelayOverflowCollapsesToZero | src/brain/client.rs:101-103 | base 1000 at retry 62: the code waits 0, the intended delay is 30000 |
| BrainClient.Infer | src/brain/client.rs:46-117 | at most max_retries+1 attempts, each earlier one failed; the i-th sleep is the delay as the code computes it (`DelayAsWritten(i)`, wrapping product, at most 30000 ms); success is the last reply's; exhaustion reports the attempt count and the last error's text |
| Json.StringField | src/executor/bash.rs:54-55 | exactly a string under the key of an object is found, and it is that string |
| ToolExecutor.Success | src/executor/types.rs:17-22 | output with the content, not an error |
| ToolExecutor.Failure | src/executor/types.rs:24-29 | output with the content, flagged as an error |
| ToolExecutor.BashSchema | src/executor/bash.rs:33-48 | the schema requires exactly the "command" field |
| ToolExecutor.BashDefinition | src/executor/bash.rs:33-48 | the bash tool is named "bash", carries its description and the schema |
| ToolExecutor.ParseBashInput | src/executor/bash.rs:54-55 | input parses exactly when it carries a string "command", and yields that command |
| ToolExecutor.FormatContent | src/executor/bash.rs:72-88 | the builder loop gives exactly the documented layout |
| ToolExecutor.StdoutBlockIffOutput | src/executor/bash.rs:72-75 | the STDOUT block appears exactly when there is output |
| ToolExecutor.SilentRunShowsOnlyExitCode | src/executor/bash.rs:72-88 | a silent run shows only the exit code |
| ToolExecutor.ContentEndsWithExitCode | src/executor/bash.rs:85-88 | every result ends with the exit-code line |
| ToolExecutor.BothStreamsLayout | src/executor/bash.rs:72-88 | with both streams, the layout is STDOUT, a newline, STDERR, then the exit code |
| ToolExecutor.SignalledRunReportsMinusOne | src/executor/bash.rs:85-88 | a run with no exit code reports -1 |
| ToolExecutor.RunBash | src/executor/bash.rs:50-102 | bad input is `InvalidInput`, a failed spawn is `SpawnFailed`, otherwise the formatted output, an error exactly for a non-zero or missing code |
| ToolExecutor.Definition | src/executor/runner.rs:59-62 | every registered tool defines itself as "bash" |
| ToolExecutor.InitialTools | src/executor/runner.rs:27-56 | bash is the only tool, with the configured description or the default |
| ToolExecutor.Executor.constructor | src/executor/runner.rs:27-56 | the registry is `InitialTools` |
| ToolExecutor.Executor.ToolDefinitions | src/executor/runner.rs:59-62 | one definition per registered tool, and none other |
| ToolExecutor.Executor.Execute | src/executor/runner.rs:65-77 | an unregistered name is `UnknownTool` and runs nothing; a registered one runs with bash's outcomes |
| ToolExecutor.WrongFieldIsInvalid | src/executor/bash.rs:54-55 | input without "command" is refused |
| ToolExecutor.ExitCodesDecideError | src/executor/bash.rs:90 | a run succeeds exactly with exit code 0 |
| AgentCommon.ExtractText | src/agent/loop_.rs:73-86 | a reply without text blocks gives empty text |
| AgentCommon.ExtractToolCalls | src/agent/loop_.rs:89-105 | at most one call per block, and none exactly when there is no tool-use block |
| AgentCommon.ExtractTextAppend | src/agent/loop_.rs:73-86 | text of a concatenation is the concatenation of the texts |
| AgentCommon.ExtractToolCallsAppend | src/agent/loop_.rs:89-105 | calls of a concatenation are the calls of each part, in order |
| AgentCommon.ToolCallsComeFromBlocks | src/agent/loop_.rs:89-105 | every extracted call is a tool-use block of the reply |
| AgentCommon.ExtractionExample | src/agent/inference.rs:557-610 | the extraction examples of the unit tests |
| AgentCommon.ResultText | src/agent/mod.rs:279-319 | tool failures and error outputs are sent back as "Error: " text flagged as errors; others as is |
| AgentCommon.ToolResultMessage | src/agent/mod.rs:279-319 | each result is a user message with one tool result for the call's id |
| AgentCommon.ToolResults | src/agent/loop_.rs:108-148 | one result message per call |
| AgentCommon.ToolRecord | src/agent/mod.rs:279-319 | a run is journalled as its sent-back text, a failure as "name: error" |
| AgentCommon.ToolRecords | src/agent/loop_.rs:108-148 | one journal record per call |
| AgentCommon.BuildRequest | src/agent/loop_.rs:40-70 | the builder calls give exactly `RequestFor` |
| AgentCommon.UserFirstBuilds | src/agent/loop_.rs:40-70 | a conversation opening with the user always builds, with the brain's settings |
| AgentCommon.ExecuteToolCalls | src/agent/inference.rs:194-226 | the conversation gains exactly the calls' result messages |
| AgentCommon.ToolRunSnoc | src/agent/loop_.rs:108-148 | running one more call adds its message and record at the end |
| AgentCommon.RecordCall | src/agent/mod.rs:279-319 | one call gives its result message and appends its record under the cap |
| AgentCommon.ExecuteRecorded | src/agent/loop_.rs:108-148 | the results are appended to the conversation and the records to the journal under the cap |
| AgentCommon.HandleRound | src/agent/mod.rs:190-325 | a round that goes on is within the limit, counts one inference and only grows the conversation |
| AgentCommon.RunRound | src/agent/mod.rs:190-325 | a round as run is `HandleRound`; a final round records nothing |
| AgentCommon.HandleUnfold | src/agent/mod.rs:190-330 | `handle`'s result and records are those of its first round followed by the rest |
| AgentCommon.HandleStep | src/agent/mod.rs:190-330 | one round of the loop either finishes with `HandleFrom`'s result or leaves `HandleFrom` of the next state equal to that of the current one |
| AgentCommon.JournalStep | src/memory/mod.rs:46-52 | appending two batches under the cap one after the other equals appending both at once |
| AgentCommon.RunHandle | src/agent/mod.rs:182-330 | the loop's result is `HandleFrom`'s, and its records are appended under the cap |
| AgentCommon.HandleBounded | src/agent/mod.rs:190-198 | at most `max_tool_rounds` inferences, and one record per execution |
| AgentCommon.HandleAlwaysBuilds | src/agent/mod.rs:203-229 | `handle` fails only through the brain, never the builder |
| AgentCommon.EndlessToolUseAborts | src/agent/mod.rs:329-330 | a brain that always wants tools ends with the abort text after exactly `max_tool_rounds` inferences |
| AgentCommon.FirstAnswerIsFinal | src/agent/mod.rs:321-325 | a first reply that is not tool use is the answer, with no records |
| AgentCommon.NoRoundsNoInference | src/agent/mod.rs:190-198 | with zero rounds the brain is never asked |
| AgentCore.SystemWithContext | src/agent/mod.rs:169-178 | the system prompt is the prompt, the context heading, then the context |
| AgentCore.ReplyFor | src/agent/mod.rs:140-159 | the reply is an error exactly for a failure, holding its text, otherwise the answer |
| AgentCore.ReplyRecord | src/agent/mod.rs:140-159 | an answer is journalled as the interaction, a failure as an error entry |
| AgentCore.ShutdownRecord | src/agent/mod.rs:407-432 | only an answer is journalled, prefixed "Shutdown: " |
| AgentCore.AgentLoop.constructor | src/agent/mod.rs:77-85 | a fresh memory with the configured identity |
| AgentCore.AgentLoop.EnvFor | src/agent/mod.rs:169-178 | the loop's environment uses the context system prompt, the listed tools and the round limit |
| AgentCore.AgentLoop.Handle | src/agent/mod.rs:167-331 | the result and the journal are `HandleFrom` on the context read at the start and the listed tools |
| AgentCore.AgentLoop.HandleUserRequest | src/agent/mod.rs:128-164 | a timeout journals "Handle timeout" and replies "Request timeout"; otherwise the reply and the record follow `handle`'s records |
| AgentCore.AgentLoop.Shutdown | src/agent/mod.rs:407-432 | a timeout journals nothing; otherwise `handle`'s records, then the shutdown observation if it answered |
| Agent.FromFailure | src/agent/mod.rs:203-234 | a build failure is `RequestBuild`, a brain failure `Inference`, with the message |
| Agent.FailureTextIsDisplay | src/agent/mod.rs:449-458 | the text of a failed `handle` is its error's display |
| Agent.ErrorTextInjective | src/agent/mod.rs:449-458 | distinct errors display differently |
| Agent.DefaultConfig | src/agent/mod.rs:43-64 | 20 rounds, timeouts 120/30/300 s, the identity string |
| Agent.InitRequest | src/agent/mod.rs:395-404 | the init request always builds: model, system prompt, the init prompt alone, token limit, tools, nothing else |
| Agent.InitRecords | src/agent/mod.rs:334-392 | one record per call |
| Agent.InitResponseRecords | src/agent/mod.rs:334-392 | the answer's text first, then a record per call on tool use only |
| Agent.InitRecordVersusHandle | src/agent/mod.rs:334-392 | init and `handle` journal a tool identically unless its output is an error |
| Agent.RecordInit | src/agent/mod.rs:376-383 | one call adds its raw output, or "name: error", to the capped journal |
| Agent.InitRecordsStep | src/memory/mod.rs:46-52 | recording one more call under the cap equals capping the records of one call more |
| Agent.HandleInferenceResponse | src/agent/mod.rs:334-392 | never fails; appends `InitResponseRecords` under the cap |
| Agent.RunInit | src/agent/mod.rs:88-125 | a timeout and a brain failure are errors and journal nothing; an answer is handled and journalled |
| LoopAgent.FromFailure | src/agent/loop_.rs:271-339 | a build failure is `RequestBuild`, a brain failure `Inference`, with the message |
| LoopAgent.FailureTextIsDisplay | src/agent/error.rs:7-16 | the text of a failed `handle` is its error's message |
| LoopAgent.DefaultConfig | src/agent/types.rs:31-43 | 20 rounds, timeouts 120/30/300 s, identity "Shelly" |
| LoopAgent.InitStep | src/agent/loop_.rs:167-226 | a round that goes on is within the limit, counts one inference and only grows the conversation |
| LoopAgent.Answered | src/agent/loop_.rs:188-214 | every answer is observed first; the loop goes on exactly on tool use |
| LoopAgent.InitEnv | src/agent/loop_.rs:151-176 | init uses the plain system prompt, the listed tools and the round limit |
| LoopAgent.RunInitStep | src/agent/loop_.rs:167-226 | a round as run is `InitStep`, with its records journalled under the cap |
| LoopAgent.RunAnswer | src/agent/loop_.rs:188-214 | an answer as handled is `Answered`, with its records journalled |
| LoopAgent.InitUnfold | src/agent/loop_.rs:167-226 | init's outcome is its first round followed by the rest |
| LoopAgent.RunInit | src/agent/loop_.rs:151-230 | the result and the journal are `InitFrom` on the init prompt and the listed tools |
| LoopAgent.InitLoop | src/agent/loop_.rs:167-226 | the loop's result is `InitFrom`'s, and its records are appended under the cap |
| LoopAgent.InitBounded | src/agent/loop_.rs:168-172 | init starts at most `max_tool_rounds` inferences |
| LoopAgent.InitSucceedsWhenBrainAnswers | src/agent/loop_.rs:207-214 | a brain that always answers in time makes init succeed, even when rounds run out |
| LoopAgent.FirstAnswerObservedFirst | src/agent/loop_.rs:188-193 | the first record of an answered init is that answer's text |
| LoopAgent.FirstStallTimesOut | src/agent/loop_.rs:221-224 | a stalled first inference is the init timeout, with no records |
| Inference.InferenceLoop | src/agent/inference.rs:38-103 | the recursive loop's result, conversation and counters are exactly `Loop` |
| Inference.MessagesOnlyGrow | src/agent/inference.rs:38-103 | the conversation is only appended to |
| Inference.SuccessAccounting | src/agent/inference.rs:89-100 | on success, rounds within the limit, one inference per round plus one, and one message per round, per execution and the final answer |
| Inference.MaxRoundsReportsOnePast | src/agent/inference.rs:67-75 | `MaxToolRounds` reports the configured maximum and one past it |
| Inference.UserFirstNeverRefused | src/agent/inference.rs:51-52 | a user-first conversation never fails to build |
| Inference.EndlessToolUseHitsLimit | src/agent/inference.rs:397-422 | a brain that always wants tools ends in `MaxToolRounds` after one inference per round plus one |
| Inference.BrainFailureIsPassedOn | src/agent/inference.rs:425-472 | a brain failure is returned with its message and the conversation unchanged |
| Inference.OneToolRoundExample | src/agent/inference.rs:369-394 | one tool round ends with four messages and one round reported |
| Inference.FailedToolExample | src/agent/inference.rs:476-504 | a failing tool is reported back as an error "Error: Command failed" |

## Left out

- UDP socket I/O, `tokio::select!`, intervals and sleeps: datagrams, ticks and receive failures are a list of events. Every send of the server succeeds: its `SendError` path is not modelled. The client's send failures are modelled (`sendFails`).
- MessagePack (`rmp-serde`) is replaced by `PayloadCodec`, a simple tagged encoding with three bytes per code point. Only its round trip and its refusals are relied on, not MessagePack's byte layout.
- HTTP (`reqwest`) and `serde_json` parsing: each exchange's reply, the body parser and the JSON-to-text rendering are parameters.
- Floating point: temperature and top-p are opaque values. The cosine similarity and the sort of `recall` are the `ranking` argument. memory/similarity.rs is not part of this model.
- Process spawning, its captured bytes and the lossy UTF-8 conversion: `spawn` is a function from command to output.
- Files, environment variables and TOML: `load`, `store` and `persist` of the storage memory, and `load_tool_descriptions`. The descriptions arrive as a map.
- memory/types.rs is not part of this model. The storage memory's journal entries are taken to be those of src/memory/mod.rs, with the same display.
- The CLI's terminal UI, line editing, history and argument parsing, and all logging.
- Counters are unbounded: the u32 round and retry counters are not modelled to wrap. The sequence numbers do wrap.
- Timestamps with years of 10000 or more.
- A `handle` cancelled by its timeout: the model has it record nothing. The journal writes the cancelled future had done before the timeout fired are not modelled.
- A failed send on the reply channel of `handle_user_request` is only logged by the source and is not modelled.
- HashMap iteration order: `tool_definitions` is specified up to order, and the order used is a ghost result.
- The unreachable `map_err(AgentError::RequestBuild)` of mod.rs's `run_init`: the request always builds (`Agent.InitRequest`).
- src/agent/loop_.rs and src/agent/inference.rs are not wired into the crate's modules. They are modelled as written.
- `InferenceError` is not defined in src/agent/error.rs. `Inference.InferenceError` follows its use in inference.rs.
- The client performs no payload size check before sending. The server's limit is modelled.
- Server.Comm.Run: states where the loop ends and where every send and forward goes, not the per-datagram effect. That effect is `Server.Comm.HandlePacket`'s contract.

## Findings

| source | as written | input that shows it | evidently intended | confidence | as-written member | corrected member |
|---|---|---|---|---|---|---|
| src/brain/client.rs:101-103 | the delay multiplies the base delay by a saturated 2^(retries-1) with a plain u64 multiplication, which wraps in release builds before the 30 s cap is applied | base delay 1000 ms and retry 62: 1000 * 2^61 wraps to 0, so the client waits 0 ms | the delay grows with each retry up to the 30 s cap | not executed | BrainClient.DelayOverflowCollapsesToZero | BrainClient.Delay |

`BrainClient.Infer` sleeps the delay as the code computes it. By
`BrainClient.DelayAsWrittenAgreesWithoutOverflow`, that delay is the intended `BrainClient.Delay`
whenever the product fits in a u64.
