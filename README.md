# PropServerConfiguration in Dafny

A model of QuestDB's `PropServerConfiguration`. The class turns a
`java.util.Properties` bag of key/value text into the settings of three
subsystems:
- the HTTP server, with its IO dispatcher and text loader;
- the Cairo storage engine;
- the InfluxDB line protocol UDP receiver.

The constructor reads a fixed list of keys, in source order. Each key goes
through one typed getter (`getInt`, `getIntSize`, `getLong`, `getDouble`,
`getBoolean`, `getString` or `getIPv4Address`) with a default, and the two
bind addresses go through `parseBindTo`. The first value that fails to parse
aborts construction with a `ServerConfigurationException` naming the key and
the offending text. On success, the object keeps every value, and read-only
views hand each subsystem its share.

Modules:

- `Wrappers` (`wrappers.dfy`): `Option` and `Result`.
- `JavaLang` (`java_lang.dfy`): the pieces of `java.lang` the class relies on:
  - `int`/`long` ranges;
  - `String.indexOf(char)`;
  - `Boolean.parseBoolean`.
- `PropertyGetters` (`property_getters.dfy`): the seven private getters.
  - The properties are a `map<string, string>`.
  - `ServerConfigurationException` is the datatype `ConfigError(key, value)`.
  - The number and address parsers of `Numbers` and `Net` are parameters: a record `Numerics` of partial functions (`None` is a `NumericException`/`NetworkError`).
- `BindTo` (`bind_to.dfy`): `parseBindTo` as the function `ParseBindSpec`, with the lemmas about its error ladder.
- `KeyTable` (`key_table.dfy`): the constructor's lookups as data.
  - An `Entry` is a key, the getter the constructor applies to it, and its default.
  - `ResolveAll` is the in-order, first-failure-wins walk over a list of entries.
  - The `...Step` methods perform one lookup while tracking the walk in ghost state.
- `ServerConfiguration` (`server_configuration.dfy`): the class itself.
  - The key list `ServerKeys`, with each key and default exactly as in the constructor.
  - The constructor, split into groups of consecutive lookups.
  - The class `PropServerConfiguration`, with its settings as constant fields, the four bind fields that the `onReady` callbacks write during construction, and the getters of the views.
  - The lemmas that tie a constructed object back to the properties it was built from.

How the pieces connect: `PropServerConfiguration.New` is the constructor.
- It fails exactly when `ResolveAll(nums, props, ServerKeys)` fails, with the same error.
- On success the object's fields, in key order, are the values `ServerKeys` resolves to (`ResolvedFrom`).
- The `Resolved...` lemmas then state, setting by setting, which getter call with which key and default produced each field.

## Model

| member | source | states |
|---|---|---|
| JavaLang.IndexOf | core/src/main/java/com/questdb/PropServerConfiguration.java:313 | `indexOf(':')` is -1 exactly when there is no colon; otherwise it is the position of the first colon, with no colon before it |
| JavaLang.ParseBooleanIsLowerCaseTrue | core/src/main/java/com/questdb/PropServerConfiguration.java:246-249 | `Boolean.parseBoolean` of a present value is true exactly when the value lower-cases to "true" |
| JavaLang.ParseBooleanSamples | core/src/main/java/com/questdb/PropServerConfiguration.java:246-249 | "true", "True" and "TRUE" parse as true; "TRUEX", "yes", "" and "false" parse as false, never as an error |
| JavaLang.LowerCase | core/src/main/java/com/questdb/PropServerConfiguration.java:246-249 | lower-casing keeps the length and lower-cases each character on its own (the reference `ParseBooleanIsLowerCaseTrue` compares against) |
| PropertyGetters.GetBoolean | core/src/main/java/com/questdb/PropServerConfiguration.java:246-249 | an absent key gives the default; a present key gives `Boolean.parseBoolean` of its value; there is no error case |
| PropertyGetters.GetDouble | core/src/main/java/com/questdb/PropServerConfiguration.java:251-258 | an absent key gives the default. A present value fails exactly when it does not parse as a double, and the error carries the key and that exact value; otherwise the result is the parsed double |
| PropertyGetters.GetIPv4Address | core/src/main/java/com/questdb/PropServerConfiguration.java:260-268 | the value, or the default when the key is absent, is parsed as an IPv4 address either way, so a bad default fails too. A failure carries the key and the text that did not parse |
| PropertyGetters.GetInt | core/src/main/java/com/questdb/PropServerConfiguration.java:270-277 | an absent key gives the default. A present value fails exactly when it does not parse as an int, with the key and the value in the error; otherwise the result is the parsed int |
| PropertyGetters.GetIntSize | core/src/main/java/com/questdb/PropServerConfiguration.java:279-286 | as `GetInt`, with the size parser |
| PropertyGetters.GetLong | core/src/main/java/com/questdb/PropServerConfiguration.java:288-295 | as `GetInt`, with the long parser and the long range |
| PropertyGetters.GetString | core/src/main/java/com/questdb/PropServerConfiguration.java:297-303 | an absent key gives the default; a present key gives its value verbatim |
| BindTo.ParseBindSpec | core/src/main/java/com/questdb/PropServerConfiguration.java:305-336 | a bind text without a colon fails with the whole text as the value; every error carries the key being parsed |
| BindTo.ParseBindSpecOfHostPort | core/src/main/java/com/questdb/PropServerConfiguration.java:312-335 | for `host:port` with a colon-free host: a bad host fails with the host text, a bad port with the port text (including any further colons), and any int port succeeds with no range check |
| BindTo.SplitAtFirstColon | core/src/main/java/com/questdb/PropServerConfiguration.java:312-326 | every bind text with a colon is its part before the first colon, a colon, and the rest, so `ParseBindSpecOfHostPort` covers every text that has a colon |
| BindTo.HostPortUnique | core/src/main/java/com/questdb/PropServerConfiguration.java:312-326 | the split at the first colon is unique: two colon-free hosts give the same bind text only together with the same port text |
| KeyTable.ResolvedAt | core/src/main/java/com/questdb/PropServerConfiguration.java:131-229 | when a list of lookups all succeed, there is one value per key, and each value is the outcome of that key's own getter call |
| KeyTable.ResolveAllFailure | core/src/main/java/com/questdb/PropServerConfiguration.java:131-229 | the lookups fail with error `e` exactly when some lookup fails with `e` and every lookup before it succeeded (first failure wins, later keys are not consulted) |
| KeyTable.ResolveAllSuccess | core/src/main/java/com/questdb/PropServerConfiguration.java:131-229 | the lookups succeed exactly when every single lookup succeeds |
| KeyTable.ResolveAllFrame | core/src/main/java/com/questdb/PropServerConfiguration.java:131-229 | the outcome depends only on the properties of the keys in the list: two property bags that agree on those keys give the same outcome |
| KeyTable.UnknownKeyIgnored | core/src/main/java/com/questdb/PropServerConfiguration.java:131-229 | adding or changing a property whose key is not in the list leaves the outcome unchanged |
| KeyTable.ResolveAllAppend | core/src/main/java/com/questdb/PropServerConfiguration.java:131-229 | looking up two lists one after the other is looking up their concatenation: the first list's failure wins, otherwise the second's, otherwise the values are joined |
| KeyTable.ResolveAllSplit | core/src/main/java/com/questdb/PropServerConfiguration.java:131-229 | a concatenation yields `vs + ws` (with `vs` the length of the first list) exactly when the first list yields `vs` and the second yields `ws` |
| KeyTable.GetIntStep | core/src/main/java/com/questdb/PropServerConfiguration.java:270-277 | one `getInt` line of the constructor returns exactly `getInt`'s result (each step below returns its own getter's result): its failure is the failure of the whole key list, and its success extends the values read so far by the value it read |
| KeyTable.GetIntSizeStep | core/src/main/java/com/questdb/PropServerConfiguration.java:279-286 | the same for a `getIntSize` line |
| KeyTable.CeilPow2SizeStep | core/src/main/java/com/questdb/PropServerConfiguration.java:190 | the same for the `Numbers.ceilPow2(getIntSize(...))` line: the value kept is the rounded size |
| KeyTable.GetLongStep | core/src/main/java/com/questdb/PropServerConfiguration.java:288-295 | the same for a `getLong` line |
| KeyTable.GetDoubleStep | core/src/main/java/com/questdb/PropServerConfiguration.java:251-258 | the same for a `getDouble` line |
| KeyTable.GetBooleanStep | core/src/main/java/com/questdb/PropServerConfiguration.java:246-249 | a `getBoolean` line returns `getBoolean`'s result and always extends the values read so far by it |
| KeyTable.GetStringStep | core/src/main/java/com/questdb/PropServerConfiguration.java:297-303 | a `getString` line returns `getString`'s result and always extends the values read so far by it |
| KeyTable.GetIPv4AddressStep | core/src/main/java/com/questdb/PropServerConfiguration.java:260-268 | the same for a `getIPv4Address` line |
| KeyTable.ParseBindToStep | core/src/main/java/com/questdb/PropServerConfiguration.java:305-336 | the same for a `parseBindTo` line: its failure is the failure of the whole list, and its address pair is the next value |
| ServerConfiguration.LookupHttp | core/src/main/java/com/questdb/PropServerConfiguration.java:133-165 | the 32 lookups for the HTTP server, the IO dispatcher and the text loader run in source order; a failure is the first failing lookup's error, and a success holds every value read, in order (`HttpKeys` resolved) |
| ServerConfiguration.HttpKeysInOrder | core/src/main/java/com/questdb/PropServerConfiguration.java:133-165 | resolving the 32 lookups is resolving each group in turn, stopping at the first failure |
| ServerConfiguration.HttpKeysGroups | core/src/main/java/com/questdb/PropServerConfiguration.java:133-165 | when all 32 lookups succeed, each group of them yields its own slice of the values |
| ServerConfiguration.LookupHttpConnectionPools | core/src/main/java/com/questdb/PropServerConfiguration.java:133-136 | the lookups of `http.connection.pool.initial.capacity`, `http.connection.string.pool.capacity`, `http.multipart.header.buffer.size`, `http.multipart.idle.spin.count` run in source order; a failure is the first failing lookup's error, and a success holds the values read, in order |
| ServerConfiguration.ResolvedHttpConnectionPools | core/src/main/java/com/questdb/PropServerConfiguration.java:133-136 | each setting of a successful group is its getter's result: getInt of `http.connection.pool.initial.capacity` with default 16; getInt of `http.connection.string.pool.capacity` with default 128; getIntSize of `http.multipart.header.buffer.size` with default 512; getLong of `http.multipart.idle.spin.count` with default 10_000 |
| ServerConfiguration.LookupHttpBuffers | core/src/main/java/com/questdb/PropServerConfiguration.java:137-141 | the lookups of `http.receive.buffer.size`, `http.request.header.buffer.size`, `http.response.header.buffer.size`, `http.worker.count`, `http.send.buffer.size` run in source order; a failure is the first failing lookup's error, and a success holds the values read, in order |
| ServerConfiguration.ResolvedHttpBuffers | core/src/main/java/com/questdb/PropServerConfiguration.java:137-141 | each setting of a successful group is its getter's result: getIntSize of `http.receive.buffer.size` with default 1024 * 1024; getIntSize of `http.request.header.buffer.size` with default 1024; getIntSize of `http.response.header.buffer.size` with default 1024 * 1024; getInt of `http.worker.count` with default 2; getIntSize of `http.send.buffer.size` with default 2 * 1024 * 1024 |
| ServerConfiguration.LookupStaticContent | core/src/main/java/com/questdb/PropServerConfiguration.java:142-144 | the lookups of `http.static.index.file.name`, `http.static.pubic.directory`, `http.text.abort.broken.uploads` run in source order; a failure is the first failing lookup's error, and a success holds the values read, in order |
| ServerConfiguration.ResolvedStaticContent | core/src/main/java/com/questdb/PropServerConfiguration.java:142-144 | each setting of a successful group is its getter's result: getString of `http.static.index.file.name` with default `index.html`; getString of `http.static.pubic.directory` with default `public`; getBoolean of `http.text.abort.broken.uploads` with default true |
| ServerConfiguration.LookupHttpNetLimits | core/src/main/java/com/questdb/PropServerConfiguration.java:145-148 | the lookups of `http.net.active.connection.limit`, `http.net.event.capacity`, `http.net.io.queue.capacity`, `http.net.idle.connection.timeout` run in source order; a failure is the first failing lookup's error, and a success holds the values read, in order |
| ServerConfiguration.ResolvedHttpNetLimits | core/src/main/java/com/questdb/PropServerConfiguration.java:145-148 | each setting of a successful group is its getter's result: getInt of `http.net.active.connection.limit` with default 256; getInt of `http.net.event.capacity` with default 1024; getInt of `http.net.io.queue.capacity` with default 1024; getLong of `http.net.idle.connection.timeout` with default 5 * 60 * 1000 |
| ServerConfiguration.LookupHttpNetBuffers | core/src/main/java/com/questdb/PropServerConfiguration.java:149-152 | the lookups of `http.net.interest.queue.capacity`, `http.net.listen.backlog`, `http.net.snd.buf.size`, `http.net.rcv.buf.size` run in source order; a failure is the first failing lookup's error, and a success holds the values read, in order |
| ServerConfiguration.ResolvedHttpNetBuffers | core/src/main/java/com/questdb/PropServerConfiguration.java:149-152 | each setting of a successful group is its getter's result: getInt of `http.net.interest.queue.capacity` with default 1024; getInt of `http.net.listen.backlog` with default 256; getIntSize of `http.net.snd.buf.size` with default 2 * 1024 * 1024; getIntSize of `http.net.rcv.buf.size` with default 2 * 1024 * 1024 |
| ServerConfiguration.LookupTextCaches | core/src/main/java/com/questdb/PropServerConfiguration.java:153-156 | the lookups of `http.text.adapter.set.config`, `http.text.date.adapter.pool.capacity`, `http.text.json.cache.limit`, `http.text.json.cache.size` run in source order; a failure is the first failing lookup's error, and a success holds the values read, in order |
| ServerConfiguration.ResolvedTextCaches | core/src/main/java/com/questdb/PropServerConfiguration.java:153-156 | each setting of a successful group is its getter's result: getString of `http.text.adapter.set.config` with default `/text_loader.json`; getInt of `http.text.date.adapter.pool.capacity` with default 16; getIntSize of `http.text.json.cache.limit` with default 16384; getIntSize of `http.text.json.cache.size` with default 8192 |
| ServerConfiguration.LookupTextRollBuffers | core/src/main/java/com/questdb/PropServerConfiguration.java:157-161 | the lookups of `http.text.max.required.delimiter.stddev`, `http.text.metadata.string.pool.capacity`, `http.text.roll.buffer.limit`, `http.text.roll.buffer.size` run in source order; a failure is the first failing lookup's error, and a success holds the values read, in order |
| ServerConfiguration.ResolvedTextRollBuffers | core/src/main/java/com/questdb/PropServerConfiguration.java:157-161 | each setting of a successful group is its getter's result: getDouble of `http.text.max.required.delimiter.stddev` with default 0.1222; getInt of `http.text.metadata.string.pool.capacity` with default 128; getIntSize of `http.text.roll.buffer.limit` with default 4096; getIntSize of `http.text.roll.buffer.size` with default 1024 |
| ServerConfiguration.LookupTextPools | core/src/main/java/com/questdb/PropServerConfiguration.java:162-165 | the lookups of `http.text.analysis.max.lines`, `http.text.lexer.string.pool.capacity`, `http.text.timestamp.adapter.pool.capacity`, `http.text.utf8.sink.size` run in source order; a failure is the first failing lookup's error, and a success holds the values read, in order |
| ServerConfiguration.ResolvedTextPools | core/src/main/java/com/questdb/PropServerConfiguration.java:162-165 | each setting of a successful group is its getter's result: getInt of `http.text.analysis.max.lines` with default 1000; getInt of `http.text.lexer.string.pool.capacity` with default 64; getInt of `http.text.timestamp.adapter.pool.capacity` with default 64; getIntSize of `http.text.utf8.sink.size` with default 4096 |
| ServerConfiguration.LookupCairo | core/src/main/java/com/questdb/PropServerConfiguration.java:182-217 | the 36 lookups for the storage engine run in source order; a failure is the first failing lookup's error, and a success holds every value read, in order (`CairoKeys` resolved) |
| ServerConfiguration.CairoKeysInOrder | core/src/main/java/com/questdb/PropServerConfiguration.java:182-217 | resolving the 36 lookups is resolving each group in turn, stopping at the first failure |
| ServerConfiguration.CairoKeysGroups | core/src/main/java/com/questdb/PropServerConfiguration.java:182-217 | when all 36 lookups succeed, each group of them yields its own slice of the values |
| ServerConfiguration.LookupCairoDefaults | core/src/main/java/com/questdb/PropServerConfiguration.java:182-185 | the lookups of `cairo.create.as.select.retry.count`, `cairo.default.map.type`, `cairo.default.symbol.cache.flag`, `cairo.default.symbol.capacity` run in source order; a failure is the first failing lookup's error, and a success holds the values read, in order |
| ServerConfiguration.ResolvedCairoDefaults | core/src/main/java/com/questdb/PropServerConfiguration.java:182-185 | each setting of a successful group is its getter's result: getInt of `cairo.create.as.select.retry.count` with default 5; getString of `cairo.default.map.type` with default `fast`; getBoolean of `cairo.default.symbol.cache.flag` with default false; getInt of `cairo.default.symbol.capacity` with default 256 |
| ServerConfiguration.LookupCairoTimings | core/src/main/java/com/questdb/PropServerConfiguration.java:186-189 | the lookups of `cairo.file.operation.retry.count`, `cairo.idle.check.interval`, `cairo.inactive.reader.ttl`, `cairo.inactive.writer.ttl` run in source order; a failure is the first failing lookup's error, and a success holds the values read, in order |
| ServerConfiguration.ResolvedCairoTimings | core/src/main/java/com/questdb/PropServerConfiguration.java:186-189 | each setting of a successful group is its getter's result: getInt of `cairo.file.operation.retry.count` with default 30; getLong of `cairo.idle.check.interval` with default 100; getLong of `cairo.inactive.reader.ttl` with default -10000; getLong of `cairo.inactive.writer.ttl` with default -10000 |
| ServerConfiguration.LookupCairoIndexing | core/src/main/java/com/questdb/PropServerConfiguration.java:190-193 | the lookups of `cairo.index.value.block.size`, `cairo.max.swap.file.count`, `cairo.mkdir.mode`, `cairo.parallel.index.threshold` run in source order; a failure is the first failing lookup's error, and a success holds the values read, in order |
| ServerConfiguration.ResolvedCairoIndexing | core/src/main/java/com/questdb/PropServerConfiguration.java:190-193 | each setting of a successful group is its getter's result: ceilPow2 of getIntSize of `cairo.index.value.block.size` with default 256; getInt of `cairo.max.swap.file.count` with default 30; getInt of `cairo.mkdir.mode` with default 509; getInt of `cairo.parallel.index.threshold` with default 100000 |
| ServerConfiguration.LookupCairoCache | core/src/main/java/com/questdb/PropServerConfiguration.java:194-197 | the lookups of `cairo.reader.pool.max.segments`, `cairo.spin.lock.timeout`, `cairo.cache.rows`, `cairo.cache.blocks` run in source order; a failure is the first failing lookup's error, and a success holds the values read, in order |
| ServerConfiguration.ResolvedCairoCache | core/src/main/java/com/questdb/PropServerConfiguration.java:194-197 | each setting of a successful group is its getter's result: getInt of `cairo.reader.pool.max.segments` with default 5; getLong of `cairo.spin.lock.timeout` with default 1_000_000; getInt of `cairo.cache.rows` with default 16; getIntSize of `cairo.cache.blocks` with default 4 |
| ServerConfiguration.LookupSqlStores | core/src/main/java/com/questdb/PropServerConfiguration.java:198-201 | the lookups of `cairo.character.store.capacity`, `cairo.character.store.sequence.pool.capacity`, `cairo.column.pool.capacity`, `cairo.compact.map.load.factor` run in source order; a failure is the first failing lookup's error, and a success holds the values read, in order |
| ServerConfiguration.ResolvedSqlStores | core/src/main/java/com/questdb/PropServerConfiguration.java:198-201 | each setting of a successful group is its getter's result: getInt of `cairo.character.store.capacity` with default 1024; getInt of `cairo.character.store.sequence.pool.capacity` with default 64; getInt of `cairo.column.pool.capacity` with default 4096; getDouble of `cairo.compact.map.load.factor` with default 0.7 |
| ServerConfiguration.LookupSqlPools | core/src/main/java/com/questdb/PropServerConfiguration.java:202-205 | the lookups of `cairo.expression.pool.capacity`, `cairo.fast.map.load.factor`, `cairo.sql.join.context.pool.capacity`, `cairo.lexer.pool.capacity` run in source order; a failure is the first failing lookup's error, and a success holds the values read, in order |
| ServerConfiguration.ResolvedSqlPools | core/src/main/java/com/questdb/PropServerConfiguration.java:202-205 | each setting of a successful group is its getter's result: getInt of `cairo.expression.pool.capacity` with default 8192; getDouble of `cairo.fast.map.load.factor` with default 0.5; getInt of `cairo.sql.join.context.pool.capacity` with default 64; getInt of `cairo.lexer.pool.capacity` with default 2048 |
| ServerConfiguration.LookupSqlPages | core/src/main/java/com/questdb/PropServerConfiguration.java:206-209 | the lookups of `cairo.sql.map.key.capacity`, `cairo.sql.map.page.size`, `cairo.model.pool.capacity`, `cairo.sql.sort.key.page.size` run in source order; a failure is the first failing lookup's error, and a success holds the values read, in order |
| ServerConfiguration.ResolvedSqlPages | core/src/main/java/com/questdb/PropServerConfiguration.java:206-209 | each setting of a successful group is its getter's result: getInt of `cairo.sql.map.key.capacity` with default 2048; getIntSize of `cairo.sql.map.page.size` with default 4 * 1024 * 1024; getInt of `cairo.model.pool.capacity` with default 1024; getIntSize of `cairo.sql.sort.key.page.size` with default 4 * 1024 * 1024 |
| ServerConfiguration.LookupSqlJoinPages | core/src/main/java/com/questdb/PropServerConfiguration.java:210-213 | the lookups of `cairo.sql.sort.light.value.page.size`, `cairo.sql.hash.join.value.page.size`, `cairo.sql.tree.page.size`, `cairo.sql.hash.join.light.value.page.size` run in source order; a failure is the first failing lookup's error, and a success holds the values read, in order |
| ServerConfiguration.ResolvedSqlJoinPages | core/src/main/java/com/questdb/PropServerConfiguration.java:210-213 | each setting of a successful group is its getter's result: getIntSize of `cairo.sql.sort.light.value.page.size` with default 1048576; getIntSize of `cairo.sql.hash.join.value.page.size` with default 16777216; getIntSize of `cairo.sql.tree.page.size` with default 4 * 1024 * 1024; getIntSize of `cairo.sql.hash.join.light.value.page.size` with default 1048576 |
| ServerConfiguration.LookupCairoWorkers | core/src/main/java/com/questdb/PropServerConfiguration.java:214-217 | the lookups of `cairo.sql.sort.value.page.size`, `cairo.work.steal.timeout.nanos`, `cairo.parallel.indexing.enabled`, `cairo.sql.join.metadata.page.size` run in source order; a failure is the first failing lookup's error, and a success holds the values read, in order |
| ServerConfiguration.ResolvedCairoWorkers | core/src/main/java/com/questdb/PropServerConfiguration.java:214-217 | each setting of a successful group is its getter's result: getIntSize of `cairo.sql.sort.value.page.size` with default 16777216; getLong of `cairo.work.steal.timeout.nanos` with default 10_000; getBoolean of `cairo.parallel.indexing.enabled` with default true; getIntSize of `cairo.sql.join.metadata.page.size` with default 16384 |
| ServerConfiguration.LookupLineUdp | core/src/main/java/com/questdb/PropServerConfiguration.java:224-228 | the lookups of `line.udp.join`, `line.udp.commit.rate`, `line.udp.msg.buffer.size`, `line.udp.msg.count`, `line.udp.receive.buffer.size` run in source order; a failure is the first failing lookup's error, and a success holds every value read (`LineUdpKeys` resolved) |
| ServerConfiguration.ResolvedLineUdp | core/src/main/java/com/questdb/PropServerConfiguration.java:224-228 | each setting of a successful group is its getter's result: getIPv4Address of `line.udp.join` with default 232.1.2.3; getInt of `line.udp.commit.rate` with default 10_000; getIntSize of `line.udp.msg.buffer.size` with default 1024 * 1024; getInt of `line.udp.msg.count` with default 10_000; getIntSize of `line.udp.receive.buffer.size` with default 2048 |
| ServerConfiguration.LookupBindTo | core/src/main/java/com/questdb/PropServerConfiguration.java:167-170 | one `parseBindTo` call of the constructor: it fails exactly as the one-entry key list does, with the same error, or yields the address pair that list resolves to |
| ServerConfiguration.ServerKeysInOrder | core/src/main/java/com/questdb/PropServerConfiguration.java:133-228 | the constructor's lookups run in source order: the HTTP settings, the HTTP bind address, the Cairo settings, the UDP bind address, then the UDP settings, each part consulted only when the parts before it succeeded |
| ServerConfiguration.PropServerConfiguration.New | core/src/main/java/com/questdb/PropServerConfiguration.java:131-229 | construction fails exactly when the key list fails, with the first failing lookup's key and value (given that the MIME types load of lines 172-180, not modelled, succeeds). On success, a fresh object holds every value read, in key order (`ResolvedFrom`), and keeps `root` verbatim, which the Cairo view's `getRoot` returns |
| ServerConfiguration.PropServerConfiguration.constructor | core/src/main/java/com/questdb/PropServerConfiguration.java:131-229 | the settings are stored exactly as read, and each bind pair is the address and port its `onReady` lambda is handed (lines 167-170 and 219-222) |
| ServerConfiguration.ResolvedParts | core/src/main/java/com/questdb/PropServerConfiguration.java:131-229 | in a constructed object, each of the five parts (HTTP, HTTP bind, Cairo, UDP bind, UDP) is what that part's own keys resolve to from the properties |
| ServerConfiguration.DefaultHttpBind | core/src/main/java/com/questdb/PropServerConfiguration.java:167 | when `http.bind.to` is absent, the dispatcher view's bind address and port are the parses of "0.0.0.0" and "9000" |
| ServerConfiguration.DefaultLineUdpBind | core/src/main/java/com/questdb/PropServerConfiguration.java:219 | when `line.udp.bind.to` is absent, the UDP view's bind address and port are the parses of "0.0.0.0" and "9009" |
| ServerConfiguration.IndexValueBlockSizeRounded | core/src/main/java/com/questdb/PropServerConfiguration.java:190 | in a constructed object, `cairo.index.value.block.size` (default 256) parsed as a size, and the Cairo view's `getIndexValueBlockSize` is that size rounded up by `ceilPow2` |

The view getters (lines 343-825) read one field each, or return the nested
view. They have no row of their own: `New`, the `Default...` lemmas and
`IndexValueBlockSizeRounded` state their results through them.

## Left out

- The MIME types cache (lines 172-180): loading the `/site/conf/mime.types` resource into a `MimeTypesCache`, and the Windows-only strip of a leading slash from that resource's path. This is file I/O and platform detection. `getMimeTypesCache` (line 355) is left out with it.
- PropServerConfiguration.New: assumes the MIME types load succeeds. In Java a failing load aborts construction after the `http.bind.to` lookup and before the Cairo lookups; the model's "fails exactly when the key list fails" holds only when that load does not throw.
- The facade and clock getters of the views: `getFilesFacade` (345, 610), `getClock` (394, 553), `getNetworkFacade` (424, 812), `getEpollFacade` (429), `getSelectFacade` (434), `getMicrosecondClock` (640), `getMillisecondClock` (645). They return singletons of the operating-system layer, not settings.
- `getInitialBias` (line 439): it returns the constant `IOOperation.READ`, an enum from outside this class.
- The parsers of `Numbers` (`parseInt`, `parseIntSize`, `parseLong`, `parseDouble`, `ceilPow2`) and `Net.parseIPv4` are not part of this model. They are parameters (`Numerics`), and every property is proved for all of them.
- `getDouble`: doubles are `real`. The model does not say which texts parse or how they round.
- `Properties` is a map from text to text. Its defaults chain and non-text values are not modelled.
- Concurrency: the object is built once and then only read. There is no locking to model.
- PropServerConfiguration.New: the `onReady` callbacks are not separate members. Their writes to the bind fields are made by the Dafny constructor, after all lookups have succeeded, rather than in the middle of the Java constructor. No caller can tell the difference: a failure leaves no object, and no field is read between a callback and the end of the constructor.
- PropServerConfiguration.New: the four bind fields are `const` in the model. Java declares them private and non-final, but only the callbacks write them, and only during construction, so they never change afterwards.
- PropServerConfiguration.New: the views are `datatype` values over the object, made when requested, rather than the seven objects (lines 43-49) allocated with it. They hold no state of their own.
- ServerConfiguration.ServerKeys: the two bind defaults are written `"0.0.0.0" + ":" + "9000"` and `"0.0.0.0" + ":" + "9009"`. These are the same texts as the source's literals.
- BindTo.ParseBindSpec: follows the code rather than a tidier reading of the bind syntax.
  - The text is cut at its first colon, so any further colons belong to the port text.
  - Any int port is accepted, with no 0-65535 check.
  - Every failure is the one `ServerConfigurationException`, carrying the key and the failing text. There are no separate error kinds.
