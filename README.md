# Stream cache configuration and TCP segment descriptors, in Dafny

This project models two pieces of the stream/session-tracking core of a
network intrusion detection engine and proves properties of them.

1. **The `stream` configuration module** (`src/stream/base/stream_module.cc`).
   `set()` routes each parameter either to the global `footprint`, to the
   IP-frags-only run flag, or to one of six per-family cache-limit records:
   ip, icmp, tcp, udp, user and file. Each record holds `max_sessions`,
   `pruning_timeout`, `nominal_timeout` and `cap_weight`. `begin()` on the
   module's own table resets the configuration. `end()` is the reload guard.
   It keeps the last committed configuration and an issue counter, counts
   structural changes of loaded caches (and of the footprint), and commits
   the new configuration only when the whole `stream` table ends with no
   issue.
2. **The TCP segment descriptor** (`src/stream/libtcp/tcp_segment_descriptor.cc`).
   Its constructor decodes ports, sequence and acknowledgment numbers and
   window from network byte order (section 3.1 of RFC 9293). It computes
   `end_seq` in 32-bit wrap-around arithmetic, adding one for a SYN (section
   3.4 of RFC 9293) but not for a FIN, and it raises an internal-SYN event on
   SYN without ACK. `init_mss` and `init_wscale` search the options for the
   first MSS option (section 3.2 of RFC 9293) or window-scale option. The
   window scale is clamped to 14 (section 2.3 of RFC 7323, which replaces
   the RFC 1323 the code cites).

Files and modules:

- `ints.dfy`, module `Ints`: 8/16/32-bit unsigned types, wrap-around, and
  big-endian decoding with its inverse.
- `cstring.dfy`, module `CString`: `strstr(s, t) != nullptr` as `Contains`,
  proved equal to "t occurs at some position of s".
- `wrappers.dfy`, module `Wrappers`: `Option`.
- `stream_module.dfy`, module `Stream`: the configuration records, `set()`
  and `end()` as pure step functions (`ApplySet`, `EndStep`), and the class
  `StreamModule`. The class's fields are `config`, `savedConfig`,
  `issueFound` and the run flag `ipFragsOnly`. Its methods `Begin`, `Set`
  and `End` update those fields step by step, as the source does, and are
  proved to produce exactly the state the step functions give.
- `stream_reload.dfy`, module `StreamReload`: properties of whole
  configuration passes, i.e. sequences of `end()` calls. `EndAll` runs
  those calls with the configuration already final (see "Left out").
- `tcp_segment_descriptor.dfy`, module `TcpSegment`: the header layout, the
  class `TcpSegmentDescriptor` (constructor, `InitMss`, `InitWscale`,
  `HasWscale`), the event logger, and the first-match option search.

### Behaviour kept as written

Lines 212-213 check the user and file caches by comparing the NEW **ip**
record, `config.ip_cfg`, with the saved user and file records. The model
does the same (`Stream.TableIssues`; `StreamReload.ComparedRecord` names the
record each check reads). Three lemmas show what follows:

- `CheckedRecords`: the new user and file records are never consulted by
  the six reload checks (they are still committed with the rest).
- `UnchangedDefaultsReportUserCache`: reloading the unchanged default
  configuration reports an issue when `stream.user_cache` ends.
- `UserCacheChangeCommitted`: in the pass that ends `stream.user_cache`
  and then `stream`, a real change of the user cache's `max_sessions` is
  committed whenever the saved user record equals the ip record.

`set()` picks the family by the first table name found in `fqn`, in the
order ip, icmp, tcp, udp, user, file (`Stream.Route`). It tests the
`footprint` and `ip_frags_only` names before looking at `fqn`.

### Reload conditions as the code states them

- A reload is refused when a loaded cache's table ends and one of its
  checks sees a structural change. A cache is loaded once a configuration
  with a nonzero `max_sessions` for it has been committed. The structural
  limits are `max_sessions`, `pruning_timeout` and `idle_timeout`. For the
  ip, icmp, tcp and udp caches, the check compares the cache's own new
  record with its saved record. For user and file, it compares the new ip
  record with their saved record. Whether the cache holds sessions is not
  consulted.
- `footprint` is only stored by `set()` and compared on reload. It does
  not change any cache's `max_sessions`.
- The user and file caches are compared with the new ip record, not with
  their own (see above).

## Model

| member | source | states |
|---|---|---|
| `Ints.Wrap32` | src/stream/libtcp/tcp_segment_descriptor.cc:40 | uint32_t arithmetic: the result equals the exact value modulo 2^32, and is that value when it fits |
| `Ints.Wrap16` | src/stream/base/stream_module.cc:176 | the uint16_t cast used for cap_weight keeps the value modulo 2^16 |
| `Ints.DecodeEncode16` | src/stream/libtcp/tcp_segment_descriptor.cc:35-36 | decoding the network-order octets of a 16-bit value gives the value back |
| `Ints.EncodeDecode16` | src/stream/libtcp/tcp_segment_descriptor.cc:39 | every two-octet field is the encoding of its ntohs value (decoding loses nothing) |
| `Ints.DecodeEncode32` | src/stream/libtcp/tcp_segment_descriptor.cc:37-38 | decoding the network-order octets of a 32-bit value gives the value back |
| `Ints.EncodeDecode32` | src/stream/libtcp/tcp_segment_descriptor.cc:37-38 | every four-octet field is the encoding of its ntohl value |
| `CString.ContainsIff` | src/stream/base/stream_module.cc:145-161 | the strstr model succeeds exactly when the name occurs at some position of fqn |
| `CString.ContainsMiddle` | src/stream/base/stream_module.cc:188 | a name placed inside a path is found in it |
| `CString.NotContainsMissingChar` | src/stream/base/stream_module.cc:188 | a name with a character the path lacks is not found in it |
| `Stream.WithCache` | src/stream/base/stream_module.cc:166-176 | writing through `fc` changes that family's record and nothing else |
| `Stream.DefaultLimits` | src/stream/base/stream_module.cc:59-64 | the six default tuples, each within the ranges declared at lines 44-54 |
| `Stream.Route` | src/stream/base/stream_module.cc:145-161 | the chosen family's table name occurs in fqn and no earlier one's does; no family exactly when no name occurs |
| `Stream.SetCacheField` | src/stream/base/stream_module.cc:166-181 | max_sessions and pruning_timeout go to their own fields, idle_timeout to nominal_timeout, cap_weight as 16 bits; any other name is rejected |
| `Stream.ApplySet` | src/stream/base/stream_module.cc:130-182 | footprint: 32-bit value stored, true, caches untouched; ip_frags_only: flag raised when true and never cleared, true; inside a cache table: only the routed record changes, true exactly for the four keys, false with nothing changed otherwise; outside: delegated, nothing changed |
| `Stream.CheckCacheChange` | src/stream/base/stream_module.cc:184-199 | 1 exactly when the saved max_sessions is nonzero, fqn names the table, and one of the three structural limits differs; else 0 |
| `Stream.TableIssues` | src/stream/base/stream_module.cc:208-213 | at most 6; 0 unless some loaded cache's table name occurs in fqn; a loaded user cache is reported when its saved max_sessions differs from the new ip record's (line 212 as written) |
| `Stream.FootprintIssue` | src/stream/base/stream_module.cc:217-222 | a footprint change is an issue exactly when the saved ip max_sessions is nonzero |
| `Stream.EndStep` | src/stream/base/stream_module.cc:205-226 | another fqn: saved config unchanged, issue count only grows (by at most 6); `stream`: commits iff the total issue count is 0, and resets the counter |
| `Stream.StreamModule.constructor` | src/stream/base/stream_module.cc:205-206 | empty configuration, empty saved configuration, no issue, run flag clear |
| `Stream.StreamModule.GetData` | src/stream/base/stream_module.cc:117-120 | the configuration being built |
| `Stream.StreamModule.Begin` | src/stream/base/stream_module.cc:122-128 | returns true; the module's own table resets the configuration, any other leaves it |
| `Stream.StreamModule.Set` | src/stream/base/stream_module.cc:130-182 | the new configuration, run flag and result are those of ApplySet |
| `Stream.StreamModule.End` | src/stream/base/stream_module.cc:203-228 | returns true; the saved configuration and counter become those of EndStep; the configuration is untouched |
| `StreamReload.TopLevelRunsNoCacheCheck` | src/stream/base/stream_module.cc:208-215 | ending `stream` itself runs none of the six cache checks |
| `StreamReload.CapWeightIsNotStructural` | src/stream/base/stream_module.cc:190-192 | a difference in cap_weight alone is never reported |
| `StreamReload.CheckedRecords` | src/stream/base/stream_module.cc:208-213 | each check compares its saved record with ComparedRecord (ip for user and file); the new user and file records never matter |
| `StreamReload.FirstLoadCommits` | src/stream/base/stream_module.cc:205-224 | with nothing committed yet, any pass of sub-table ends followed by `stream` commits the configuration |
| `StreamReload.IssuesBlockCommit` | src/stream/base/stream_module.cc:223-225 | once an issue is counted, the pass ends with the old saved configuration and a zero counter |
| `StreamReload.EndAllAppend` | src/stream/base/stream_module.cc:203-228 | ending the tables of one list and then another is ending their concatenation |
| `StreamReload.SubTablesKeepSaved` | src/stream/base/stream_module.cc:208-215 | ending sub-tables never commits and never lowers the issue count |
| `StreamReload.StructuralChangeCounted` | src/stream/base/stream_module.cc:184-213 | ending a loaded cache's table with a structural change of the record compared with it counts an issue |
| `StreamReload.StructuralChangeRefused` | src/stream/base/stream_module.cc:184-226 | a structural change of a loaded cache, seen when its table ends anywhere in the pass before `stream`, keeps the old saved configuration after `stream` ends |
| `StreamReload.CapWeightChangeReloads` | src/stream/base/stream_module.cc:184-226 | when every compared record (the family's own, or the new ip record for user and file) keeps the saved structure and the footprint is unchanged, any pass of sub-table ends followed by `stream` commits |
| `StreamReload.FootprintChangeRefused` | src/stream/base/stream_module.cc:217-225 | a footprint change after a load with nonzero ip max_sessions is not committed |
| `StreamReload.UserPathNamesOnlyUser` | src/stream/base/stream_module.cc:145-161 | `stream.user_cache` contains the user table name and none of the other five |
| `StreamReload.RouteOnly` | src/stream/base/stream_module.cc:145-161 | a path naming only one table is routed to it |
| `StreamReload.UserPathRoutesToUser` | src/stream/base/stream_module.cc:157-158 | set() on `stream.user_cache` writes the user record |
| `StreamReload.TableIssuesOnly` | src/stream/base/stream_module.cc:208-213 | a path naming one table runs only that table's check |
| `StreamReload.UnchangedDefaultsReportUserCache` | src/stream/base/stream_module.cc:212 | reloading the unchanged defaults reports one issue at the end of user_cache |
| `StreamReload.UserCacheChangeCommitted` | src/stream/base/stream_module.cc:212-224 | over the pass [`stream.user_cache`, `stream`], a user max_sessions change is committed when the saved user record equals the ip record |
| `StreamReload.DefaultsThroughSet` | src/stream/base/stream_module.cc:166-181 | setting a table's four defaults on begin()'s empty configuration yields exactly that family's default record, each call returning true |
| `TcpSegment.EncodeHeader` | src/stream/libtcp/tcp_segment_descriptor.cc:34-39 | the fixed header is 20 octets |
| `TcpSegment.DecodeEncodedHeader` | src/stream/libtcp/tcp_segment_descriptor.cc:35-39 | ports, window, seq and ack decode to the host-order values of a header laid out per RFC 9293 |
| `TcpSegment.SrcPort` | src/stream/libtcp/tcp_segment_descriptor.cc:35 | the host-order source port whose network-order encoding is octets 0-1 |
| `TcpSegment.DstPort` | src/stream/libtcp/tcp_segment_descriptor.cc:36 | the host-order destination port whose network-order encoding is octets 2-3 |
| `TcpSegment.SeqNum` | src/stream/libtcp/tcp_segment_descriptor.cc:37 | the host-order sequence number whose network-order encoding is octets 4-7 |
| `TcpSegment.AckNum` | src/stream/libtcp/tcp_segment_descriptor.cc:38 | the host-order acknowledgment number whose network-order encoding is octets 8-11 |
| `TcpSegment.Window` | src/stream/libtcp/tcp_segment_descriptor.cc:39 | the host-order window whose network-order encoding is octets 14-15 |
| `TcpSegment.IsSyn` | src/stream/libtcp/tcp_segment_descriptor.cc:44 | true exactly when bit 1 (TH_SYN) of the flags octet is set |
| `TcpSegment.IsAck` | src/stream/libtcp/tcp_segment_descriptor.cc:47 | true exactly when bit 4 (TH_ACK) of the flags octet is set |
| `TcpSegment.IsFin` | src/stream/libtcp/tcp_segment_descriptor.cc:43 | true exactly when bit 0 (TH_FIN) of the flags octet is set |
| `TcpSegment.EndSeq` | src/stream/libtcp/tcp_segment_descriptor.cc:40-46 | seq plus the payload length plus one for a SYN, reduced modulo 2^32; that exact sum when it fits |
| `TcpSegment.EndSeqSpan` | src/stream/libtcp/tcp_segment_descriptor.cc:40-46 | end_seq minus seq, modulo 2^32, is the payload length plus one for a SYN |
| `TcpSegment.FinDoesNotCount` | src/stream/libtcp/tcp_segment_descriptor.cc:43-46 | a flags octet differing from the header's in FIN alone flips IsFin and keeps IsSyn, IsAck and end_seq |
| `TcpSegment.FirstIndex` | src/stream/libtcp/tcp_segment_descriptor.cc:66-73 | the position found is the first option of the kind; none exactly when no option has it |
| `TcpSegment.MssOf` | src/stream/libtcp/tcp_segment_descriptor.cc:61-80 | TF_MSS exactly when some option is MAXSEG, with data[0]*256+data[1] of the first; else TF_NONE and 0 |
| `TcpSegment.WscaleOf` | src/stream/libtcp/tcp_segment_descriptor.cc:83-113 | TF_WSCALE exactly when some option is WSCALE, with min(data[0], 14) of the first; else TF_NONE and 0; always at most 14 |
| `TcpSegment.FirstIndexIgnoresLater` | src/stream/libtcp/tcp_segment_descriptor.cc:66-73 | options after the first match do not change the search |
| `TcpSegment.MssIgnoresLaterOptions` | src/stream/libtcp/tcp_segment_descriptor.cc:66-73 | later MSS options are ignored |
| `TcpSegment.WscaleIgnoresLaterOptions` | src/stream/libtcp/tcp_segment_descriptor.cc:90-107 | later window-scale options are ignored |
| `TcpSegment.WscaleClamped` | src/stream/libtcp/tcp_segment_descriptor.cc:97-104 | a lone window-scale option with value v is reported as min(v, 14) |
| `TcpSegment.MssOnlyOptions` | src/stream/libtcp/tcp_segment_descriptor.cc:61-113 | an MSS-only option list yields (TF_MSS, 1460) and (TF_NONE, 0) |
| `TcpSegment.TcpEventLogger.constructor` | src/stream/libtcp/tcp_segment_descriptor.cc:31 | a new logger has recorded no internal-SYN event |
| `TcpSegment.TcpEventLogger.SetTcpInternalSynEvent` | src/stream/libtcp/tcp_segment_descriptor.cc:48 | records one more internal-SYN event |
| `TcpSegment.TcpSegmentDescriptor.constructor` | src/stream/libtcp/tcp_segment_descriptor.cc:31-54 | ports, seq, ack, win decoded; ts 0; end_seq = seq + dsize (+1 for SYN) mod 2^32; exactly one event iff SYN without ACK, else the logger untouched |
| `TcpSegment.TcpSegmentDescriptor.InitMss` | src/stream/libtcp/tcp_segment_descriptor.cc:61-81 | the loop returns MssOf of the options and changes no field |
| `TcpSegment.TcpSegmentDescriptor.InitWscale` | src/stream/libtcp/tcp_segment_descriptor.cc:83-114 | the loop returns WscaleOf of the options and changes no field |
| `TcpSegment.TcpSegmentDescriptor.HasWscale` | src/stream/libtcp/tcp_segment_descriptor.cc:116-123 | returns the flag init_wscale returns and changes no field |
| `TcpSegment.SynScenario` | src/stream/libtcp/tcp_segment_descriptor.cc:40-49 | a SYN without ACK, seq 1000 and 40 payload octets ends at 1041 with one event |

## Left out

- The option iterator (`TcpOptIterator`, from `protocols/tcp_options`) is not part of this model. The descriptor takes the iterator's output as a sequence of (kind, data) options. `OptionsWellFormed` requires what the iterator's length check is relied on to give: MSS data has at least 2 octets and window-scale data at least 1. Nothing is claimed about the iterator's termination or bounds.
- Session caches, pruning and eviction, weighted capacity accounting and the footprint override of `max_sessions`: none of these is in the modelled files. Here `footprint` is only stored and checked on reload.
- Parameter range enforcement (`2:max32`, `0:65535`) is done by the parameter framework, which is not part of this model. `Value.num` is a natural number, and `get_uint32`/`get_uint16` are modelled as truncation (`Wrap32`, `Wrap16`).
- `Module::set`, the generic fallback for names outside the cache tables, is not part of this model. `Set` reports `Delegated` and changes nothing.
- Text output is left out: `ReloadError`, `DebugMessage`, `DebugFormat`, `LogMessage`, `print_tsd`. `ReloadError` appears only as the issue count.
- Statistics and registry hooks are left out: `get_pegs`, `get_counts`, `get_profile`, `get_gid`, `get_rules`, `sum_stats`, `show_stats`, `reset_stats`. The descriptor's empty destructor is left out too.
- `SnortConfig` is reduced to its IP-frags-only run flag, held as a field of `StreamModule`. In the source, `set()` raises the flag on the `SnortConfig` passed with the call, and a new one comes with each configuration load. The model's flag outlives a configuration pass: `Begin` does not clear it, so once raised it stays raised in later passes. The unused `int` argument of `begin()`/`end()` is dropped.
- The statics `saved_config` and `issue_found` of `end()` are shared by all instances in the source. They are fields of the single `StreamModule` object here.
- `issue_found` is a C++ `int`. It is a `nat` in the model; overflow is not modelled. The counter is reset at every end of `stream` and grows by at most 6 per sub-table end, so one pass stays far below `INT_MAX`.
- Headers not part of this model: `stream_module.h`, `tcp_defs.h`, `tcp_event_logger.h` and the packet and flow types. The following values are assumed from them:
  - `MOD_NAME` is `"stream"`.
  - `config = {}` zeroes every limit and the footprint.
  - `TF_NONE`, `TF_WSCALE` and `TF_MSS` are 0, 1 and 8.
  - `pkt->dsize` is 16 bits.
  - `set_tcp_internal_syn_event` is modelled as an event counter.
- The descriptor keeps only the header octets, the payload length and the option sequence. The `flow` and `pkt` references are not modelled.
- A configuration pass is modelled as `StreamReload.EndAll`, which runs every `end()` against one final configuration. In the source, `set()` calls for a table come between that table's `begin()` and `end()`, so earlier tables end before later ones are set. The step-by-step interleaving is captured by the methods of `Stream.StreamModule`: `End` reads whatever `config` holds at that moment. The pass lemmas do not cover configurations that change between two `end()` calls.
- `strstr` and `strcmp` are modelled on Dafny strings: substring test and equality. Embedded NUL characters are not modelled.
- `StreamReload.UserPathNamesOnlyUser` and the user-cache lemmas prove routing for a concrete path only for `stream.user_cache`. For `stream.icmp_cache` and `stream.udp_cache`, that the earlier names do not occur would need a position-by-position search. `Route`'s contract and `RouteOnly` cover every path in general.
