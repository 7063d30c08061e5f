# DNSentinel in Dafny

DNSentinel is a recursive DNS resolver. This project models its decision-making
core and proves what that core is relied on for, for all inputs and all runs:

- **Messages** (`Types`, `WireName`, `NameWriter`, `Emitting`, `WireParser`,
  `WireBuilder`, `WireRecords`, `WireSections`, `WireMessage`, `WireSound`,
  `WireLayout`, `Writer`): building and parsing of RFC 1035 messages with name
  compression, truncation at RRset boundaries (section 9 of RFC 2181) and EDNS
  (section 6.1 of RFC 6891). What is emitted is specified by functions of the offset and the
  compression map; the buffer that is patched and rolled back is a class proved
  against them.
- **Resolver** (`ResolverTask`, `ResolverServers`, `ResolverAnswers`,
  `ResolverLimits`, `ResolverTree`, `ResolverInvariant`, `ResolverSound`,
  `ResolverRuns`, `ResolverClients`, `ResolverEnds`, `ResolverServes`,
  `ResolverUses`, `ResolverFacts`, `ResolverZero`, `ResolverHops`,
  `ResolverLoops`, `Resolver`, `Upstream`): each callback is one step over all tasks, driven by arbitrary replies, timeouts, cache hits and
  clients. Invariants hold over whole runs, what clients are told is traced back
  to responses, and a number in base maxGlueless + 2 that every event lowers
  bounds each resolution.
- **Blocklist trie** (`TrieKeys`, `TrieRules`, `TrieBuild`, `TrieLookup`):
  stable sort, breadth-first freeze, binary search, against trying every rule.
- **Cache** (`CacheList`, `CacheShard`, `CacheRuns`, `CacheKeeps`, `Cache`): list,
  index and byte count of a shard against its entries in order of use.
- **Rate limiters** (`RateTable`, `RateLimiter`, `ResponseLimiter`): one bounded
  table, two ways of counting. Token counts are reals.
- **Event loop and TCP** (`Timers`, `TcpFraming`): tables and buffers that are
  changed by the callbacks running over them.
- **Names** (`NameText`, `CnameCheck`): presentation format, and the names
  behind CNAMEs.

Where the source mutates an object, a class does too, and its methods are proved
equal to the functions that the theorems are about. What the outside decides is a
parameter: the clock, the bytes and errors a socket yields, which server is
picked, the transaction ID, hash values, and what a cache lookup hits. The cache
model proves what the resolver assumes of those hits, and the upstream model what
it assumes of replies.

Where comments and code differ the code is followed. The CNAME hop counter has
eight bits, so a limit of 255 never takes effect. The response counter has
thirty-two bits, so the cap per window can be exceeded from 2^32 responses on. A
callback that adds a timer in the past can end a round of timers early. The cache
marks a missing name by type zero, so answers to questions of that type can read
as NXDOMAIN. Each of these has a counterexample and an exact condition:
`ResolverHops.EndsIffBelow255`, `ResponseLimiter.CapHoldsIff`,
`Timers.AllFireIff` and `ResolverFacts.SafeIffNotZero`.

`dafny verify dfyconfig.toml` checks everything.

## Model

| member | source | states |
|---|---|---|
| `WireMessage.BuildRoundTrip` | core/wire/builder.cpp:165-225 | for every well-formed message and every size limit, compressed or not, the built message is within the limit and parses; the parsed message is the original cut as the truncation rules demand, with exact counts and TC set exactly when the caller set it or a question, answer or authority record was lost |
| `WireMessage.WholeRoundTrip` | core/wire/builder.cpp:222-225 | a message that fits parses back whole: same header with wire counts, same sections and EDNS; names equal on canonical labels when compressed and in exact letter case when not |
| `WireMessage.CutReadsBack` | core/wire/parser.cpp:251-283 | whatever prefix of each section is written, the parser accepts it: no pointer rule, jump limit, count overflow or section pre-check ever rejects builder output |
| `WireMessage.CutForRight` | core/wire/builder.cpp:177-208 | the cut keeps whole RRsets in order, nothing follows a section that was cut, what is kept fits the limit, and the first RRset left out would not have fitted |
| `WireMessage.FitsWhole` | core/wire/builder.cpp:177-208 | a message whose full encoding is within the limit is never cut |
| `WireMessage.MapGoodUnderAnyHeader` | core/wire/builder.cpp:54-88 | after any sequence of writes, and whatever the header is filled with in the end, every compression entry has an offset of at most fourteen bits at which the written bytes read as exactly that suffix |
| `WireMessage.CountsExact` | core/wire/parser.cpp:256-260 | the sixteen-bit counts of a built message never wrap and always pass the parser's check against the message size |
| `WireMessage.HeaderReads` | core/wire/parser.cpp:224-249 | every header reads back from its twelve bytes, opcode and rcode as four bits |
| `WireMessage.OptReads` | core/wire/edns.cpp:16-45 | every OPT record written reads back as the same EDNS data, and is accepted only as the one OPT of the additional section |
| `WireLayout.OptAcceptedIff` | core/wire/edns.cpp:16-34 | an OPT record is accepted if and only if its data is a sequence of options with exact lengths, and then gives the payload size, extended rcode, version and DO bit at their places in class and TTL |
| `WireLayout.OptionsIgnored` | core/wire/edns.cpp:16-34 | a built message whose OPT is given any options still parses, to the same message |
| `WireLayout.OptOnWire` | core/wire/edns.cpp:36-45 | the OPT written is the root name, type 41, the payload size, and the rcode, version and DO bit at their places, without options |
| `WireLayout.HeaderOnWire` | core/wire/parser.cpp:224-249 | every field of an accepted header is at its place in the twelve bytes |
| `WireLayout.PlainOnWire` | core/wire/builder.cpp:90-144 | uncompressed questions and records byte by byte, for every value of their fields |
| `WireLayout.PointerOnWire` | core/wire/builder.cpp:76-78 | a pointer is two bytes: the top bits set, then fourteen bits of offset |
| `WireLayout.DataOnWire` | core/wire/builder.cpp:117-127 | MX and SOA data byte by byte |
| `WireLayout.TtlRead` | core/wire/parser.cpp:171-202 | the fields of an accepted record are at their places after its owner, and a TTL with the top bit set is zero |
| `WireLayout.PrecheckExact` | core/wire/parser.cpp:256-260 | counts that could not fit at five bytes a question and eleven a record are rejected as such, and the check rejects nothing that would have parsed |
| `WireLayout.KnownNumbers` | core/include/dnsentinel/types.h:102-112 | the type and class numbers and the limits on names are those of RFC 1035, RFC 3596 and RFC 6891 |
| `WireLayout.KnownNamesShort` | core/wire/builder.cpp:96-144 | a record whose names are in the map takes a fixed number of bytes, by type |
| `WireLayout.AddressAnswerSize` | core/wire/builder.cpp:165-218 | an answer of n addresses for the name asked takes exactly the header, the question and 16n bytes, and is not cut if that fits |
| `WireLayout.UdpLimit` | core/wire/builder.cpp:222-225 | built for UDP with any limit, a message takes at most the greater of that and 512 bytes, parses, and is whole if it fits |
| `WireSound.ParsedIsBuildable` | core/wire/parser.cpp:36-204 | every message the parser accepts satisfies all that the builder asks of its input |
| `WireSound.ReencodeRoundTrip` | core/wire/parser.cpp:251-283 | a parsed message that fits builds and parses to the same message again |
| `WireSound.TcpFrameExact` | core/wire/builder.cpp:227-232 | the two-octet length in front of a TCP message is exact, and what follows parses to the message, cut only if it exceeds 65535 bytes |
| `NameWriter.EmitNameReads` | core/wire/builder.cpp:54-88 | a name written after any earlier output, through any compression map that describes that output, reads back as the same name ending just where the writer stopped; the map still describes the output, and only entries for bytes just written were added |
| `NameWriter.SuffixKeyInjective` | core/wire/builder.cpp:63-71 | different canonical suffixes have different keys in the compression map |
| `NameWriter.NamesShrink` | core/wire/builder.cpp:73-79 | a name one of whose suffixes is in the map takes at most the labels before that suffix and two bytes |
| `NameWriter.NamesRecorded` | core/wire/builder.cpp:80-82 | every suffix of a written name at an offset of at most 0x3FFF, up to the first one in the map, is in the map from then on, at just that offset |
| `NameWriter.SecondTimeShort` | core/wire/builder.cpp:73-88 | a name once written at such an offset takes two bytes ever after |
| `NameWriter.NeverLonger` | core/wire/builder.cpp:73-88 | compression never makes a name longer, and without it a name takes exactly its labels and the root |
| `WireName.DecodeNameIffWalk` | core/wire/parser.cpp:36-82 | a name is read exactly when following labels and strictly backward pointers reaches a root label within 255 bytes and 128 jumps, and then it is that name |
| `WireName.ReadName` | core/wire/parser.cpp:36-82 | the loop over labels and pointers computes the name, or the error, that the recursive definition gives, for every buffer and position |
| `WireRecords.RecordReads` | core/wire/builder.cpp:96-144 | a record written anywhere in a message reads back as the same record, of every type, with its RDLENGTH exact |
| `WireRecords.QuestionReads` | core/wire/builder.cpp:90-94 | a question written anywhere in a message reads back as the same question |
| `WireSections.SectionReads` | core/wire/parser.cpp:166-204 | a section written record by record reads back as the same records, whatever follows it in the message |
| `Emitting.FitCutsWell` | core/wire/builder.cpp:189-204 | the whole-RRset loop stops at the first boundary after which the next RRset would exceed the limit, for any records and limit |
| `MessageWriter.RollbackRestores` | core/wire/builder.cpp:39-42 | dropping the bytes from a mark on, and the map entries that point at or past it, restores the writer exactly to where it was, at any record boundary |
| `MessageWriter.Writer.Name` | core/wire/builder.cpp:54-88 | the loops over keys and labels append exactly the specified bytes and map entries |
| `MessageWriter.Writer.Record` | core/wire/builder.cpp:96-144 | writing a record with its RDLENGTH patched afterwards leaves the same buffer as knowing the length beforehand |
| `MessageWriter.Writer.Rollback` | core/wire/builder.cpp:39-42 | the buffer and the map are those of the mark |
| `MessageWriter.Writer.Section` | core/wire/builder.cpp:189-204 | the section loop with its rollback leaves exactly the records of the specified cut, and reports whether it stopped early |
| `MessageWriter.Writer.Questions` | core/wire/builder.cpp:177-186 | the question loop with its rollback leaves exactly the questions of the specified cut |
| `MessageWriter.Writer.FillHeader` | core/wire/builder.cpp:150-163 | the header goes into the first twelve bytes and nothing else changes |
| `MessageWriter.BuildMessage` | core/wire/builder.cpp:165-218 | the whole imperative build returns the specified message for every input and limit |
| `MessageWriter.Build` | core/wire/builder.cpp:222-225 | the same with the limit raised to the classic 512 bytes |
| `MessageWriter.BuildTcp` | core/wire/builder.cpp:227-232 | the framed form of the specified message |
| `WireParser.Parse` | core/wire/parser.cpp:251-283 | the imperative parser returns the specified message or the specified error for every input |
| `WireParser.ReadSection` | core/wire/parser.cpp:166-204 | the record loop returns the specified records, OPT data and position, or the first error |
| `WireParser.ReadRdata` | core/wire/parser.cpp:96-162 | record data of every type is decoded as specified, with the same error when its length is wrong |
| `WireParser.ReadStrings` | core/wire/parser.cpp:146-157 | the loop over character-strings returns all of them, or the error when one overruns |
| `WireParser.ParseOpt` | core/wire/edns.cpp:16-34 | options are walked to the end or rejected as specified |
| `WireParser.ReadQuestion` | core/wire/parser.cpp:84-91 | a question or the specified error |
| `ResolverClients.EveryRun` | core/resolver/recursive_resolver.cpp:224-713 | over every run from the start, with any clients, timers, replies, deadlines and cache hits: every delivered answer (a CNAME path and the records asked for, or something some server denied, in class IN) and every cached record is sound, stored no longer than its TTLs or the SOA minimum allow, each task waits for exactly one thing inside a zone above its name, no budget is exceeded, no server gets more than four UDP queries per zone visit, and every call is answered exactly once or still waits |
| `ResolverRuns.StepKeeps` | core/resolver/recursive_resolver.cpp:224-713 | each event of the outside world keeps the whole invariant: task tree, in-flight table, limits, zones, chains, server discipline, cache writes, deliveries |
| `ResolverRuns.RunKeeps` | core/resolver/recursive_resolver.cpp:224-713 | so does every sequence of events |
| `ResolverClients.RunConserves` | core/resolver/recursive_resolver.cpp:244-313 | over every run each resolve call is held by exactly one client task or has been called back exactly once, with the question as that client asked it |
| `ResolverClients.AnsweredOnce` | core/resolver/recursive_resolver.cpp:281-313 | a call waits if and only if it has not been answered, and is never answered twice |
| `ResolverClients.OnePerQuestion` | core/resolver/recursive_resolver.cpp:244-260 | there is at most one client task per question |
| `ResolverEnds.RunEnds` | core/resolver/recursive_resolver.cpp:339-513 | over every run, the events that concern one client's tasks, and the tasks they begin, are at most the client's rank when it asked: resolutions end without their deadline |
| `ResolverEnds.FreshRank` | core/resolver/recursive_resolver.cpp:244-260 | that rank is known from the configuration alone: 2 * maxQueries * G^5 + (G - 1) * G^4 + 1 for G = maxGlueless + 2 |
| `ResolverEnds.ApplyCost` | core/resolver/recursive_resolver.cpp:446-513 | carrying out a verdict, through any chain of ending sub-tasks, leaves a strictly smaller number than the task's ancestors and unused look-ups allow |
| `ResolverEnds.NeverStuck` | core/resolver/recursive_resolver.cpp:224-242 | some task of every live resolution has a start timer or an upstream query pending |
| `ResolverHops.EndsIffBelow255` | core/resolver/recursive_resolver.cpp:329-374 | for every configuration, the loop over cached CNAMEs ends for every cache of things learnt from responses if and only if max_cname_chain is at most 254; so does the loop over an answer section for every message |
| `ResolverHops.CnameLoopNeverEnds` | core/resolver/recursive_resolver.cpp:329-374 | with max_cname_chain 255 the eight-bit hop counter wraps, and any cycle of cached CNAMEs is followed for any number of rounds |
| `ResolverHops.AnswerLoopNeverEnds` | core/resolver/recursive_resolver.cpp:650-669 | with max_cname_chain 255 an answer that is a CNAME to its own name is followed for any number of rounds |
| `ResolverHops.AliasLearnt` | core/resolver/recursive_resolver.cpp:650-669 | a CNAME to another name reaches the cache through the answer loop: two such make a cycle |
| `ResolverSound.ApplyKeeps` | core/resolver/recursive_resolver.cpp:262-313 | carrying out a sound verdict keeps the tree and every task sound, touches the tasks and budget of one client only, and either delivers nothing or ends that client and tells all its waiters the same |
| `ResolverInvariant.DropTree` | core/resolver/recursive_resolver.cpp:262-279 | cancelling removes a task and its descendants, leaves every other client's tasks and table entries, and breaks no other link |
| `ResolverInvariant.RootLive` | core/resolver/recursive_resolver.cpp:224-242 | no sub-task outlives the client task it works for |
| `ResolverServers.ServerLimits` | core/resolver/recursive_resolver.cpp:446-513 | a server gets at most four UDP queries per zone visit, and over TCP at most one per UDP query that was not merely echoed in the wrong case |
| `ResolverServers.ReplyDisciplined` | core/resolver/recursive_resolver.cpp:535-570 | whatever a server replies, tried stays duplicate-free and within servers, timed-out within tried, and the per-server counts within their bounds |
| `ResolverServers.NextServerDisciplined` | core/resolver/recursive_resolver.cpp:446-486 | choosing the next server, name server or retry round keeps that discipline |
| `ResolverAnswers.ReplyOk` | core/resolver/recursive_resolver.cpp:535-713 | whatever a server replies, the task ends with a sound outcome or goes on with a sound chain in a zone above its name, and everything cached lies in the zone of the server that supplied it |
| `ResolverAnswers.ReferOk` | core/resolver/recursive_resolver.cpp:686-702 | a followed referral is strictly below the old zone and still above the name, and what it caches is inside the old zone |
| `ResolverAnswers.StepOk` | core/resolver/recursive_resolver.cpp:339-378 | only data of the highest rank answers from the cache, and the answer is a CNAME path from the question to the records asked for |
| `ResolverAnswers.ChaseSound` | core/resolver/recursive_resolver.cpp:650-669 | following CNAMEs through an answer section, out of the zone or not, caches only in-zone records and keeps the path |
| `ResolverAnswers.ClosestZoneAbove` | core/resolver/recursive_resolver.cpp:384-399 | resolution starts in a zone at or above the name |
| `ResolverRuns.HonestCacheOk` | core/resolver/recursive_resolver.cpp:348-371 | a cache whose hits are entries once written, but for TTLs, never answers with glue or referral data |
| `ResolverFacts.AnswerHeard` | core/resolver/recursive_resolver.cpp:629-661 | over every run, each record given to a client was, TTL aside, in the answer section of an error-free response heard in that run, from a server asked about a zone above both the record's owner and the name being resolved |
| `ResolverFacts.AbsenceHeard` | core/resolver/recursive_resolver.cpp:677-711 | over every run in which no client asks for type zero, whenever a client is given NXDOMAIN, or an answer without records of the type asked for, a server asked about a zone above the name at the end of its CNAMEs said exactly that: NXDOMAIN, or an empty answer that is authoritative or carries an SOA and is no referral |
| `ResolverFacts.ZeroReadsAsMissing` | core/resolver/recursive_resolver.cpp:653-653 | a whole run, with an honest cache, in which a client that asks for type zero is told NXDOMAIN though the only response heard holds the record asked for |
| `ResolverFacts.SafeIffNotZero` | core/resolver/recursive_resolver.cpp:348-352 | for every set of question types: every run whose clients ask only for those delivers only absences that were heard, if and only if zero is not among them |
| `ResolverZero.WholeRun` | core/resolver/recursive_resolver.cpp:339-358 | that run takes place: each of its five events is enabled, its cache hits were written, and it ends with the wrong delivery |
| `ResolverFacts.FactHeard` | core/resolver/recursive_resolver.cpp:606-713 | whatever is believed at the end of a run, and was not before, was stated by a response heard during it |
| `ResolverFacts.StepLearns` | core/resolver/recursive_resolver.cpp:629-713 | only a response teaches anything: an event adds to what is believed just what its response says, and to the cache just what that response writes |
| `ResolverServes.OutsideUnheard` | core/security/bailiwick.cpp:10-16 | records outside the zone asked about have no effect on the verdict, on the cache or on what is known of servers |
| `ResolverServes.AnswerServed` | core/resolver/recursive_resolver.cpp:648-661 | when following CNAMEs within a response, wherever in the section they are, leads within the limit to records of the type asked for, the outcome is the CNAMEs followed before, that path and exactly those records; each is stored, with the rank the AA bit gives and a TTL that is the least of its records |
| `ResolverServes.NxDomainServed` | core/resolver/recursive_resolver.cpp:677-684 | an NXDOMAIN response without an answer ends the task with NXDOMAIN, the chain so far and the in-zone SOA, which is stored as a negative entry for the lesser of its TTL and its minimum |
| `ResolverServes.NoDataServed` | core/resolver/recursive_resolver.cpp:703-711 | a response without an answer that is authoritative, or no referral and carries an SOA, ends the task with no records and the in-zone SOA, stored likewise |
| `ResolverServes.ReferralLearnt` | core/resolver/recursive_resolver.cpp:686-699 | a downward referral beyond the limit ends the task with that error; any other has its name server set stored, and of every name server the addresses given in the zone |
| `ResolverServes.ChainGoesOn` | core/resolver/recursive_resolver.cpp:662-675 | when the CNAMEs of a response end in a name it has nothing for, the task starts again from that name, with the path added to its chain and its hops counted |
| `ResolverServes.CacheServes` | core/resolver/recursive_resolver.cpp:339-374 | when cached CNAMEs of the highest rank lead within the limit to a name with a usable entry, a denial first, that entry ends the task, after the path |
| `ResolverUses.AddressesUsed` | core/resolver/recursive_resolver.cpp:487-496 | over every step in every reachable state: when a sub-task ends with addresses, all of them are servers of its parent, and if one was not tried the parent now waits for a server it had not tried and one query more is spent |
| `ResolverUses.StartsDeepest` | core/resolver/recursive_resolver.cpp:384-399 | over every start: a question the cache does not settle is taken to the longest suffix of its name that is a stub zone or has cached name servers, else the root; its servers are exactly the stub's, or the addresses glued or cached for those name servers, and one of them is asked |
| `ResolverUses.ColdStart` | core/resolver/recursive_resolver.cpp:375-399 | the same of one task, with the exact choice of the next server or failure |
| `ResolverUses.ServersKnown` | core/resolver/recursive_resolver.cpp:421-439 | the servers of a zone are exactly the addresses in the glue of its name servers, or where there is none those in the cache, and the names to look up exactly the rest |
| `ResolverUses.LastResorts` | core/resolver/recursive_resolver.cpp:446-486 | the next server is an untried one if there is any; else a name server without addresses is looked up if the limits and its ancestors allow; else servers that timed out are asked again, while retry rounds are left; else the task fails, and it is out of queries exactly when the budget is spent |
| `ResolverUses.ReferralUsed` | core/resolver/recursive_resolver.cpp:686-702 | a followed referral enters the delegated zone with exactly the addresses its glue or the cache gives for its name servers, and goes on to one of them as above |
| `ResolverServes.NeverGivesUp` | core/resolver/recursive_resolver.cpp:535-627 | in every state, a task with a query left that gets no help (an error, a timeout, a useless or lame response) does not give up while there is another way: the same server over TCP after truncation or suspicion, in plain case for good after a case mismatch, else an untried server of the zone, in random case unless that server is known not to echo it; it spends exactly one query and nothing else changes |
| `ResolverLoops.StepOver` | core/resolver/recursive_resolver.cpp:339-378 | the loop over cached CNAMEs decides what the recursive definition does |
| `ResolverLoops.StartAtClosestZone` | core/resolver/recursive_resolver.cpp:384-399 | the walk up from the name finds the deepest stub zone or zone with cached name servers, else the root |
| `ResolverLoops.ServersOf` | core/resolver/recursive_resolver.cpp:421-439 | the loop over name servers collects the addresses, and the names left without one, as specified |
| `ResolverLoops.ChooseServer` | core/resolver/recursive_resolver.cpp:446-486 | the loops of next_server choose as specified, retry rounds included |
| `ResolverLoops.Glueless` | core/resolver/recursive_resolver.cpp:462-476 | the loop over names without glue passes over cycles and stops at the limit, as specified |
| `ResolverLoops.FollowAnswers` | core/resolver/recursive_resolver.cpp:650-669 | the loop over the answer section's CNAMEs finds and caches what the recursive definition does |
| `ResolverLoops.GlueInserts` | core/resolver/recursive_resolver.cpp:595-604 | the loop caches the glue of each name server at glue rank |
| `ResolverLoops.OnResponse` | core/resolver/recursive_resolver.cpp:535-570 | each kind of failure or reply is answered by the specified reaction |
| `ResolverLoops.HandleResponse` | core/resolver/recursive_resolver.cpp:606-632 | truncated, refused and filtered responses are acted on as specified |
| `ResolverLoops.KeepInZone` | core/security/bailiwick.cpp:10-16 | filtering a section keeps exactly the records at or below the zone, in order |
| `RecursiveResolver.Resolver.ResolveQuestion` | core/resolver/recursive_resolver.cpp:244-260 | a call joins the task in flight or begins one, and the invariant holds after it |
| `RecursiveResolver.Resolver.OnStart` | core/resolver/recursive_resolver.cpp:234-239 | the start timer takes the specified step from and to a valid state |
| `RecursiveResolver.Resolver.OnUpstream` | core/resolver/recursive_resolver.cpp:535-713 | a reply takes the specified step from and to a valid state |
| `RecursiveResolver.Resolver.OnDeadline` | core/resolver/recursive_resolver.cpp:254-259 | the deadline ends a client task, cancels all it waits for and calls its waiters back |
| `RecursiveResolver.Resolver.Finish` | core/resolver/recursive_resolver.cpp:281-313 | a finished task is released, its waiters are called in order, or its parent goes on, through any number of ancestors |
| `RecursiveResolver.Resolver.Cancel` | core/resolver/recursive_resolver.cpp:262-279 | cancelling removes the task and whatever it has in flight |
| `Upstream.ForgedIgnored` | core/resolver/upstream.cpp:128-170 | the message that ends a UDP query is the first datagram that answers it and came before too many that did not; without one the query ends only on suspicion, else it waits |
| `Upstream.DatagramsPossible` | core/resolver/upstream.cpp:128-170 | what a UDP query is told was possible: its own ID and question, in its own letter case if that was random, and a case mismatch only then |
| `Upstream.StreamPossible` | core/resolver/upstream.cpp:172-223 | the same over TCP, where there is no suspicion of spoofing |
| `Upstream.MatchExact` | core/resolver/upstream.cpp:28-36 | what answers a query is exactly a well-formed response with its ID and question, in its letters where they were random; and what counts as the wrong case exactly one with other letters |
| `Upstream.TimeUp` | core/resolver/upstream.cpp:93-99 | a query that times out is reported as a case mismatch if and only if some datagram answered it in other letters |
| `Upstream.StreamsExact` | core/resolver/upstream.cpp:194-223 | however a response over TCP is chopped up, the query waits exactly until it is whole and then ends with that message, the case mismatch or an error |
| `Upstream.ResolverCanReply` | core/resolver/upstream.cpp:28-36 | so every reply satisfies what the resolver assumes of replies |
| `Upstream.UpstreamClient.Finish` | core/resolver/upstream.cpp:119-126 | each query waits, was called back exactly once, or was cancelled |
| `Upstream.UpstreamClient.OnReadable` | core/resolver/upstream.cpp:128-170 | reading the waiting datagrams ends the query as specified or leaves it waiting |
| `Upstream.UpstreamClient.OnTcpBytes` | core/resolver/upstream.cpp:194-223 | a chunk over TCP, or the end of the stream, ends the query as specified or leaves it waiting |
| `Upstream.UpstreamClient.OnTimeout` | core/resolver/upstream.cpp:93-99 | a query whose time is up is called back with a timeout, or with the case mismatch it saw, and is gone |
| `Upstream.UpstreamClient.Cancel` | core/resolver/upstream.cpp:102-107 | a cancelled query is never called back |
| `TrieLookup.Lookup` | core/policy/blocklist_trie.cpp:226-262 | for every rule list and every name, the lookup gives the brute-force answer: matched iff a rule covers the name, allow beats block at any depth, the deepest covering rule is reported, with the source of the first rule added for that domain and action, list numbers taken modulo 65536 |
| `TrieLookup.AnswerUnique` | core/policy/blocklist_trie.cpp:226-262 | there is exactly one such answer |
| `TrieLookup.Builder.Build` | core/policy/blocklist_trie.cpp:142-209 | the frozen trie answers for exactly the rules added, size() is the number of distinct ruled domains, and the builder is left empty |
| `TrieLookup.Builder.Add` | core/policy/blocklist_trie.cpp:91-101 | one rule more, keyed by its reversed labels |
| `TrieLookup.Builder.SourceId` | core/policy/blocklist_trie.cpp:83-89 | a list name's number is the position of its first mention, modulo 65536 |
| `TrieLookup.Child` | core/policy/blocklist_trie.cpp:217-224 | the child with the label if there is one, else none has it |
| `TrieLookup.Walk` | core/policy/blocklist_trie.cpp:230-251 | the walk down finds the deepest covering rule of each action, or none |
| `TrieBuild.Freeze` | core/policy/blocklist_trie.cpp:142-209 | breadth-first freezing of any sorted rules ends, gives every rule's name a node, and each node the rules for its own name in the order added |
| `TrieBuild.AddChildren` | core/policy/blocklist_trie.cpp:179-198 | the grouping loop makes one child per next label, in search order, each with exactly the run of rules below it |
| `TrieBuild.GroupOk` | core/policy/blocklist_trie.cpp:182-188 | a maximal run of equal length-prefixed labels is all the rules below that label |
| `TrieBuild.RuleCount` | core/policy/blocklist_trie.cpp:204-204 | the nodes with a rule are as many as the distinct keys |
| `TrieKeys.FlatOrder` | core/policy/blocklist_trie.cpp:27-30 | comparing length-prefixed keys as bytes is comparing names label by label in the order of compare_labels |
| `TrieRules.SortKeepsEach` | core/policy/blocklist_trie.cpp:147-147 | sorting keeps the rules of each domain, in the order they were added |
| `TrieRules.MergeSays` | core/policy/blocklist_trie.cpp:166-177 | a node's flags are those of its rules, and its sources those of the first rule of each action |
| `SharedCache.Cache.MemoryUsed` | core/cache/cache.cpp:206-213 | the bytes of all shards, never more than max_memory_bytes |
| `SharedCache.Cache.Insert` | core/cache/cache.cpp:135-176 | an insert changes the one shard of its key, as specified, and keeps every shard sound |
| `SharedCache.Cache.Lookup` | core/cache/cache.cpp:109-133 | a lookup returns the specified hit, makes it most recently used, and counts it |
| `CacheShard.Shard.Insert` | core/cache/cache.cpp:153-175 | list, index and byte count are updated in place to the specified entries |
| `CacheShard.Shard.Trim` | core/cache/cache.cpp:173-175 | entries go from the least recently used end until the rest fits |
| `CacheShard.Shard.Erase` | core/cache/cache.cpp:85-89 | one node goes from the list, the index and the byte count alike |
| `CacheShard.Shard.Lookup` | core/cache/cache.cpp:115-126 | the index finds what a search of the list would, and the node moves to the front |
| `CacheShard.IndexFinds` | core/cache/cache.cpp:77-82 | list and index stay in bijection, so looking a key up is searching the list for it |
| `CacheList.TrimmedKeeps` | core/cache/cache.cpp:172-175 | eviction removes exactly a shortest sufficient suffix of the recency order and never the entry just written |
| `CacheList.InsertedOk` | core/cache/cache.cpp:135-176 | an insert keeps keys distinct, sizes exact and the total within the budget; an accepted write is at the front, a refused one changes nothing of other keys |
| `CacheList.RankOrder` | core/include/dnsentinel/types.h:176-181 | additional data ranks below glue, glue below authority and that below answers |
| `CacheList.RecordsCount` | core/cache/cache.cpp:32-62 | each record adds its own size, its name's and its data's to an entry's bytes |
| `CacheRuns.RunSound` | core/cache/cache.cpp:109-191 | after any sequence of operations every shard is within its budget and every entry is the last write accepted for its key |
| `CacheRuns.HitIsLatest` | core/cache/cache.cpp:118-132 | a hit is the last accepted write for its key; its TTLs are the whole seconds left, at most the clamped TTL |
| `CacheRuns.TtlsFall` | core/cache/cache.cpp:129-132 | while nothing new is stored for a key, the TTLs of its hits never rise |
| `CacheRuns.RankKept` | core/cache/cache.cpp:155-156 | over any sequence of operations during which a key stays resident, and is live at each write, its rank never drops |
| `CacheRuns.WithinMaxMemory` | core/cache/cache.cpp:94-100 | the shards together never exceed max_memory_bytes |
| `CacheRuns.ShardsSpread` | core/cache/cache.cpp:104-107 | a hash whose high half is a number below the shard count belongs to the shard of that number |
| `CacheRuns.HitWasWritten` | core/cache/cache.cpp:109-176 | after any operations on an empty cache every hit was written once, but for its TTLs |
| `CacheRuns.CacheIsHonest` | core/cache/cache.cpp:109-176 | what the resolver assumes of its cache holds of this one: lookups at any times, after any operations whose writes the resolver made, hit only what was written |
| `CacheKeeps.WrittenIsFound` | core/cache/cache.cpp:109-176 | what is written over nothing live of a higher rank is found again, but for its TTLs, until min(max(ttl, min_ttl), max_ttl) seconds have passed, after any operations that do not rewrite or remove it, as long as it and what was put or found ahead of it since fit in the shard's budget |
| `CacheKeeps.HitsExpire` | core/cache/cache.cpp:118-145 | after any operations on an empty cache, a hit is some write less than min(max(ttl, min_ttl), max_ttl) seconds old, and the TTLs of its records are the whole seconds left of those |
| `CacheKeeps.TrimmedKept` | core/cache/cache.cpp:172-175 | eviction spares every entry that fits with all those used more recently |
| `CacheKeeps.UsedKept` | core/cache/cache.cpp:125-126 | a hit brings its entry to the front and pushes others back by at most its own size |
| `RateLimiter.AdmitsAtMost` | core/policy/rate_limiter.cpp:15-52 | over any run and any stretch of it, a client's own buckets let through at most its credit and the rate times the time passed, through any forgetting; so does the shared bucket for all newcomers together |
| `RateLimiter.ConformingServed` | core/policy/rate_limiter.cpp:15-52 | over any run, whatever others send and whatever is forgotten or overflows, a client's own bucket refuses nothing if and only if in no stretch of time T of the queries it counts there are more than max(burst, 1) + qps * T; and so for the shared bucket |
| `RateLimiter.FewClientsServed` | core/policy/rate_limiter.cpp:36-52 | while the clients of a run are no more than max_clients, a client is never refused if and only if its own queries conform |
| `RateLimiter.RefusesNone` | core/policy/rate_limiter.cpp:15-25 | a bucket with any credit refuses nothing if and only if its queries fit that credit and conform to burst and rate |
| `RateLimiter.BurstBound` | core/policy/rate_limiter.cpp:15-52 | over any run of any length, from any table, at most max(burst, 1) + qps * T queries of a client's own are let through in the time T it takes, and as many of the shared bucket |
| `RateLimiter.BucketsForgettable` | core/policy/rate_limiter.cpp:27-34 | a bucket that has refilled answers like a new one from then on |
| `RateLimiter.IdleForgotten` | core/policy/rate_limiter.cpp:27-34 | a bucket left alone for burst / qps seconds is forgotten by the next sweep |
| `RateLimiter.Limiter.Allow` | core/policy/rate_limiter.cpp:36-52 | each query is decided by the specified table step, exempt and disabled cases aside, and refusals are counted |
| `RateTable.ForgettingUnobservable` | core/policy/rate_limiter.cpp:27-52 | over any run without overflow the bounded table gives the same answers as one that never forgets |
| `RateTable.CheckBounded` | core/policy/rate_limiter.cpp:45-51 | the table never exceeds max_clients |
| `RateTable.NewcomerFindsRoom` | core/policy/rate_limiter.cpp:36-52 | a newcomer to a full table gets an entry of its own if a second has passed since the last sweep and some entry is spent; exactly the spent ones go |
| `RateTable.NothingForgotten` | core/policy/rate_limiter.cpp:36-52 | otherwise nothing is forgotten |
| `RateTable.LanesCount` | core/policy/rate_limiter.cpp:36-52 | over any run, through forgetting and overflow, what is answered to the queries one entry counts, own or shared, depends on their times alone |
| `RateTable.FewKeysFit` | core/policy/rate_limiter.cpp:45-51 | no query overflows if the keys of a run and of the table before it are together no more than it may hold |
| `RateTable.RoomyLanes` | core/policy/rate_limiter.cpp:44-51 | without overflow the queries a key's own entry counts are all of its queries |
| `ResponseLimiter.WindowCapped` | core/security/rrl.cpp:30-76 | over any run of a limiter, through forgetting and overflow, for each fingerprint's own entry and for the shared one: split its responses at its window starts, and in every window of n < 2^32 exactly min(n, responses per second times window seconds) are sent, one in slip of the rest is slipped and the others dropped; the cap holds in a window if and only if n is below 2^32 or at most the cap |
| `ResponseLimiter.FingerprintCapped` | core/security/rrl.cpp:30-76 | while the fingerprints of a run are no more than max_entries, the same of all responses of a fingerprint |
| `ResponseLimiter.SplitRight` | core/security/rrl.cpp:31-31 | windows cover all times in order, each no longer than configured, and a new one begins with the first time past the last |
| `ResponseLimiter.FingerprintsTell` | core/security/rrl.cpp:57-68 | two responses have the same fingerprint if and only if they agree in client network, rcode, type and name, the zone's name for negative ones |
| `ResponseLimiter.ZoneSharesCount` | core/security/rrl.cpp:14-23 | negative responses of the same zone to one network share a count, whatever names were asked |
| `ResponseLimiter.AnswersCountApart` | core/security/rrl.cpp:14-23 | answers with records share a count only if they are for the same name, type and network |
| `ResponseLimiter.CapHoldsIff` | core/security/rrl.cpp:30-41 | the cap holds for n responses in a window if and only if n is below 2^32 or at most the cap: then the 32-bit counter does not wrap |
| `ResponseLimiter.CapCanBreak` | core/security/rrl.cpp:33-33 | with one response a second allowed, the 2^32nd response in a window is sent again |
| `ResponseLimiter.WindowCounts` | core/security/rrl.cpp:30-41 | sends, slips and drops after n responses, exactly |
| `ResponseLimiter.WindowsForgettable` | core/security/rrl.cpp:43-46 | an expired entry answers like a new one from then on |
| `ResponseLimiter.OldForgotten` | core/security/rrl.cpp:43-46 | an entry whose window is over is forgotten by the next sweep |
| `ResponseLimiter.Limiter.Check` | core/security/rrl.cpp:48-76 | each response is decided by the specified table step on its fingerprint, exempt, non-IP and disabled cases aside, and drops and slips are counted |
| `ResponseLimiter.Limiter.CountIn` | core/security/rrl.cpp:30-41 | one response is counted, dropped or slipped as specified, and tallied |
| `Timers.WholeRound` | core/net/event_loop.cpp:154-170 | whatever callbacks add, not in the past, or cancel: exactly the timers due at the start and not cancelled fire, once, in (deadline, id) order, none added meanwhile fires, nothing due is left, and the others stay unless cancelled |
| `Timers.FiredInOrder` | core/net/event_loop.cpp:154-170 | whatever callbacks do, of two timers fired in a round the first has the earlier deadline, or the same and the smaller id, and neither is after the time of the round |
| `Timers.AddedFires` | core/net/event_loop.cpp:105-111 | a timer added with a delay fires in a round, if nothing interferes, if and only if the round's time is at least that much later |
| `Timers.AllFireIff` | core/net/event_loop.cpp:154-170 | for every d: every round whose callbacks add timers with delays of at least d fires all that is due if and only if d is not negative |
| `Timers.FiresUnlessHeldUp` | core/net/event_loop.cpp:154-170 | whatever callbacks do, each due timer fires once in order, is cancelled, or is left; and all fire if and only if at the end no timer added in the round is ahead of a due one |
| `Timers.PastDeadlineEndsRound` | core/net/event_loop.cpp:161-163 | for every negative delay, a callback that adds a timer with it ends a round before a due timer has fired |
| `Timers.DoneOk` | core/net/event_loop.cpp:105-119 | whatever a callback adds and cancels, the table and the index stay in bijection and older timers are only ever cancelled |
| `Timers.EventLoop.RunDueTimers` | core/net/event_loop.cpp:154-170 | the loop ends and fires what is specified, with callbacks changing the table under it |
| `Timers.EventLoop.AddTimer` | core/net/event_loop.cpp:105-111 | one timer more in both tables, with a new id |
| `Timers.EventLoop.CancelTimer` | core/net/event_loop.cpp:113-119 | the timer goes from both tables if it was there, and the result says so |
| `TcpFraming.Connection.ProcessMessages` | core/net/tcp_listener.cpp:208-239 | with handlers that answer at once and re-enter: the bytes received are exactly the queries handed over, framed and in order, then what is left; at most 32 are pending; and no whole query waits while there is room |
| `TcpFraming.Connection.ReadFrom` | core/net/tcp_listener.cpp:187-206 | a chunk of any size is appended to the stream and processed; nothing happens while nothing is there; a failed read closes the connection, and otherwise only an unacceptable query, a failed send or a finished peer does; only acceptable queries are handed over |
| `TcpFraming.Connection.Respond` | core/net/tcp_listener.cpp:241-252 | bytes sent and bytes unsent together are all responses, framed and in order |
| `TcpFraming.Connection.Flush` | core/net/tcp_listener.cpp:254-270 | however much the socket takes, what is left follows what was sent |
| `TcpFraming.ChunkingIrrelevant` | core/net/tcp_listener.cpp:208-239 | the same bytes in other chunks give the same queries as far as both got, and all the same once neither has a whole one waiting |
| `TcpFraming.HandedAll` | core/net/tcp_listener.cpp:208-239 | what was handed over is a prefix of the stream's messages, and all of them if none is left whole |
| `TcpFraming.QueriesAcceptable` | core/net/tcp_listener.cpp:219-227 | of the messages the builder makes, exactly those that are no responses are acceptable queries |
| `NameText.TextRoundTrip` | core/wire/name.cpp:40-113 | for every name of 1 to 63 byte labels and at most 255 bytes, over all byte values, reading what is shown gives the same labels |
| `NameText.NameRoundTrip` | core/wire/name.cpp:40-113 | so from_string of to_string equals the name |
| `NameText.ShownInjective` | core/wire/name.cpp:90-113 | different names never show the same |
| `NameText.FromTextValid` | core/wire/name.cpp:40-87 | every name that is read respects both limits |
| `NameText.AnySpellingRead` | core/wire/name.cpp:41-87 | any spelling of a name, each byte plain, after a backslash or as three digits, with or without the last dot, reads as that name |
| `NameText.ShownPlainly` | core/wire/name.cpp:90-113 | each byte is shown as itself, after a backslash or as three digits, by exactly the rule of the format, and every form reads back |
| `NameText.FromString` | core/wire/name.cpp:40-87 | the loop reads, or rejects, what the recursive definition does |
| `NameText.ToString` | core/wire/name.cpp:90-113 | the loops show what the recursive definition does |
| `CnameCheck.WholeChain` | core/policy/cname_check.cpp:10-24 | the chain never repeats a name, each name leads to the next by a record of the answers, and it goes as far as they lead |
| `CnameCheck.CnameChain` | core/policy/cname_check.cpp:10-24 | the loop ends and computes that chain |
| `CnameCheck.PathRecovered` | core/policy/cname_check.cpp:10-24 | when names do not repeat, the chain is exactly the CNAME path in the answers, in whatever order they come |
| `CnameCheck.OutcomeRecovered` | core/policy/cname_check.cpp:10-24 | so it is for every answer the resolver gives, shuffled |
| `CnameCheck.FindCloaked` | core/policy/cname_check.cpp:26-40 | the first hop of the chain that the lists block, as trying every rule would, with the names up to it and the rule reported by the trie; or no hop is blocked |

## Left out

- Server selection, round-trip times and timeouts: `pick` is any choice from its candidates, and waits have no length.
- Letter case in the resolver: names are canonical labels there, so random query case is modelled only as whether a reply echoed it, and restoring the original case of records is not modelled.
- Spoof alerts, statistics, latencies and the coalesced flag of results.
- Destroying the resolver, which drops callbacks by design, and client callbacks that call back in: such a call is the next event.
- ResolverClients.EveryRun: requires max_cname_chain of at most 254, because beyond that a callback need not return; `ResolverHops.EndsIffBelow255` shows that this is exactly when both loops end.
- ResolverFacts.AbsenceHeard: requires that no client asks for records of type zero; `ResolverFacts.SafeIffNotZero` shows that this is exactly what is needed.
- Timers.WholeRound: requires that callbacks add no timer in the past; `Timers.AllFireIff` shows that this is exactly what is needed, and `Timers.FiresUnlessHeldUp` what holds without it.
- RateTable.ForgettingUnobservable: holds for runs without overflow; `RateTable.LanesCount` holds for all runs.
- TrieLookup.Lookup: node and label offsets are unbounded numbers, not 32 bits, so tries of more than 2^32 nodes or label bytes are outside the model; a node's four flag bits are four booleans.
- List files: reading and recognising their lines.
- CacheList sizes of C++ objects are parameters; shards are locked, so operations are atomic; serve-stale and prefetch fields are unused by the source.
- RateLimiter uses reals for the source's doubles, so rounding is not modelled.
- Clearing the bits of an address past a prefix, and membership in exempt networks: both are given functions of the address.
- File descriptors, watches and I/O dispatch of the event loop; only its timers are modelled.
- Listening, per-client connection limits, idle timers and reading pauses of the TCP server; only one connection's framing is modelled.
- Configuration, logging, the query processor, access lists, rebinding protection and the policy reload thread: thin composition or I/O.
