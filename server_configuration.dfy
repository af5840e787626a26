/**
 * PropServerConfiguration: the constructor's fixed sequence of lookups, the
 * resolved settings as the final fields of one object, and the read-only views
 * through which each subsystem sees its share of them.
 */
module ServerConfiguration {
  import opened Wrappers
  import opened JavaLang
  import opened PropertyGetters
  import opened BindTo
  import opened KeyTable

  /** Lines 133-136: the connection pools and the multipart parser. */
  const HttpConnectionPoolsKeys: seq<Entry> := [
    IntKey("http.connection.pool.initial.capacity", 16),
    IntKey("http.connection.string.pool.capacity", 128),
    SizeKey("http.multipart.header.buffer.size", 512),
    LongKey("http.multipart.idle.spin.count", 10_000)]

  /** Lines 137-141: the request and response buffers and the worker count. */
  const HttpBuffersKeys: seq<Entry> := [
    SizeKey("http.receive.buffer.size", 1024 * 1024),
    SizeKey("http.request.header.buffer.size", 1024),
    SizeKey("http.response.header.buffer.size", 1024 * 1024),
    IntKey("http.worker.count", 2),
    SizeKey("http.send.buffer.size", 2 * 1024 * 1024)]

  /** Lines 142-144: the static content settings and the broken upload policy. */
  const StaticContentKeys: seq<Entry> := [
    StringKey("http.static.index.file.name", "index.html"),
    StringKey("http.static.pubic.directory", "public"),
    BoolKey("http.text.abort.broken.uploads", true)]

  /** Lines 145-148: the dispatcher's connection limit, event and IO queues and idle timeout. */
  const HttpNetLimitsKeys: seq<Entry> := [
    IntKey("http.net.active.connection.limit", 256),
    IntKey("http.net.event.capacity", 1024),
    IntKey("http.net.io.queue.capacity", 1024),
    LongKey("http.net.idle.connection.timeout", 5 * 60 * 1000)]

  /** Lines 149-152: the dispatcher's interest queue, listen backlog and socket buffers. */
  const HttpNetBuffersKeys: seq<Entry> := [
    IntKey("http.net.interest.queue.capacity", 1024),
    IntKey("http.net.listen.backlog", 256),
    SizeKey("http.net.snd.buf.size", 2 * 1024 * 1024),
    SizeKey("http.net.rcv.buf.size", 2 * 1024 * 1024)]

  /** Lines 153-156: the text loader's adapter file, date adapter pool and JSON cache. */
  const TextCachesKeys: seq<Entry> := [
    StringKey("http.text.adapter.set.config", "/text_loader.json"),
    IntKey("http.text.date.adapter.pool.capacity", 16),
    SizeKey("http.text.json.cache.limit", 16384),
    SizeKey("http.text.json.cache.size", 8192)]

  /** Lines 157-161: the text loader's delimiter tolerance, metadata pool and roll buffer. */
  const TextRollBuffersKeys: seq<Entry> := [
    DoubleKey("http.text.max.required.delimiter.stddev", 0.1222),
    IntKey("http.text.metadata.string.pool.capacity", 128),
    SizeKey("http.text.roll.buffer.limit", 4096),
    SizeKey("http.text.roll.buffer.size", 1024)]

  /** Lines 162-165: the text loader's analysis limit, lexer and timestamp pools and UTF-8 sink. */
  const TextPoolsKeys: seq<Entry> := [
    IntKey("http.text.analysis.max.lines", 1000),
    IntKey("http.text.lexer.string.pool.capacity", 64),
    IntKey("http.text.timestamp.adapter.pool.capacity", 64),
    SizeKey("http.text.utf8.sink.size", 4096)]

  /** The lookups for the HTTP server, the IO dispatcher and the text loader, lines 133-165. */
  const HttpKeys: seq<Entry> :=
    HttpConnectionPoolsKeys + HttpBuffersKeys + StaticContentKeys + HttpNetLimitsKeys + HttpNetBuffersKeys + TextCachesKeys + TextRollBuffersKeys + TextPoolsKeys

  /** Line 167: the HTTP bind address, by default the text `0.0.0.0:9000`. */
  // The default is written as host, colon and port (the same text) so that proofs
  // about it need not take the literal apart character by character.
  const HttpBindKey: Entry := BindKey("http.bind.to", "0.0.0.0" + ":" + "9000")

  /** Lines 182-185: the create-as-select retry count, map type and symbol defaults. */
  const CairoDefaultsKeys: seq<Entry> := [
    IntKey("cairo.create.as.select.retry.count", 5),
    StringKey("cairo.default.map.type", "fast"),
    BoolKey("cairo.default.symbol.cache.flag", false),
    IntKey("cairo.default.symbol.capacity", 256)]

  /** Lines 186-189: the file retry count, idle check interval and pool TTLs. */
  const CairoTimingsKeys: seq<Entry> := [
    IntKey("cairo.file.operation.retry.count", 30),
    LongKey("cairo.idle.check.interval", 100),
    LongKey("cairo.inactive.reader.ttl", -10000),
    LongKey("cairo.inactive.writer.ttl", -10000)]

  /** Lines 190-193: the index block size, swap file limit, directory mode and index threshold. */
  const CairoIndexingKeys: seq<Entry> := [
    CeilPow2SizeKey("cairo.index.value.block.size", 256),
    IntKey("cairo.max.swap.file.count", 30),
    IntKey("cairo.mkdir.mode", 509),
    IntKey("cairo.parallel.index.threshold", 100000)]

  /** Lines 194-197: the reader pool, spin lock timeout and SQL cache. */
  const CairoCacheKeys: seq<Entry> := [
    IntKey("cairo.reader.pool.max.segments", 5),
    LongKey("cairo.spin.lock.timeout", 1_000_000),
    IntKey("cairo.cache.rows", 16),
    SizeKey("cairo.cache.blocks", 4)]

  /** Lines 198-201: the SQL character store, column pool and compact map. */
  const SqlStoresKeys: seq<Entry> := [
    IntKey("cairo.character.store.capacity", 1024),
    IntKey("cairo.character.store.sequence.pool.capacity", 64),
    IntKey("cairo.column.pool.capacity", 4096),
    DoubleKey("cairo.compact.map.load.factor", 0.7)]

  /** Lines 202-205: the SQL expression, join context and lexer pools and the fast map. */
  const SqlPoolsKeys: seq<Entry> := [
    IntKey("cairo.expression.pool.capacity", 8192),
    DoubleKey("cairo.fast.map.load.factor", 0.5),
    IntKey("cairo.sql.join.context.pool.capacity", 64),
    IntKey("cairo.lexer.pool.capacity", 2048)]

  /** Lines 206-209: the SQL map, model pool and sort key pages. */
  const SqlPagesKeys: seq<Entry> := [
    IntKey("cairo.sql.map.key.capacity", 2048),
    SizeKey("cairo.sql.map.page.size", 4 * 1024 * 1024),
    IntKey("cairo.model.pool.capacity", 1024),
    SizeKey("cairo.sql.sort.key.page.size", 4 * 1024 * 1024)]

  /** Lines 210-213: the SQL sort and hash join value pages and tree pages. */
  const SqlJoinPagesKeys: seq<Entry> := [
    SizeKey("cairo.sql.sort.light.value.page.size", 1048576),
    SizeKey("cairo.sql.hash.join.value.page.size", 16777216),
    SizeKey("cairo.sql.tree.page.size", 4 * 1024 * 1024),
    SizeKey("cairo.sql.hash.join.light.value.page.size", 1048576)]

  /** Lines 214-217: the last SQL pages, work stealing and parallel indexing. */
  const CairoWorkersKeys: seq<Entry> := [
    SizeKey("cairo.sql.sort.value.page.size", 16777216),
    LongKey("cairo.work.steal.timeout.nanos", 10_000),
    BoolKey("cairo.parallel.indexing.enabled", true),
    SizeKey("cairo.sql.join.metadata.page.size", 16384)]

  /** The lookups for the storage engine, lines 182-217. */
  const CairoKeys: seq<Entry> :=
    CairoDefaultsKeys + CairoTimingsKeys + CairoIndexingKeys + CairoCacheKeys + SqlStoresKeys + SqlPoolsKeys + SqlPagesKeys + SqlJoinPagesKeys + CairoWorkersKeys

  /** Line 219: the UDP line receiver's bind address, by default `0.0.0.0:9009`, written as for `HttpBindKey`. */
  const LineUdpBindKey: Entry := BindKey("line.udp.bind.to", "0.0.0.0" + ":" + "9009")

  /** Lines 224-228: the UDP line receiver's group, commit rate and buffers. */
  const LineUdpKeys: seq<Entry> := [
    IPv4Key("line.udp.join", "232.1.2.3"),
    IntKey("line.udp.commit.rate", 10_000),
    SizeKey("line.udp.msg.buffer.size", 1024 * 1024),
    IntKey("line.udp.msg.count", 10_000),
    SizeKey("line.udp.receive.buffer.size", 2048)]

  /** Every lookup of the constructor, in the order it makes them (lines 133-228). */
  const ServerKeys: seq<Entry> := HttpKeys + [HttpBindKey] + CairoKeys + [LineUdpBindKey] + LineUdpKeys

  /** The settings read for the HTTP server, the IO dispatcher and the text loader (lines 133-165). */
  datatype HttpSettings = HttpSettings(
    connectionPoolInitialCapacity: Int32,
    connectionStringPoolCapacity: Int32,
    multipartHeaderBufferSize: Int32,
    multipartIdleSpinCount: Int64,
    recvBufferSize: Int32,
    requestHeaderBufferSize: Int32,
    responseHeaderBufferSize: Int32,
    workerCount: Int32,
    sendBufferSize: Int32,
    indexFileName: string,
    publicDirectory: string,
    abortBrokenUploads: bool,
    activeConnectionLimit: Int32,
    eventCapacity: Int32,
    ioQueueCapacity: Int32,
    idleConnectionTimeout: Int64,
    interestQueueCapacity: Int32,
    listenBacklog: Int32,
    sndBufSize: Int32,
    rcvBufSize: Int32,
    adapterSetConfigurationFileName: string,
    dateAdapterPoolCapacity: Int32,
    jsonCacheLimit: Int32,
    jsonCacheSize: Int32,
    maxRequiredDelimiterStdDev: real,
    metadataStringPoolCapacity: Int32,
    rollBufferLimit: Int32,
    rollBufferSize: Int32,
    textAnalysisMaxLines: Int32,
    textLexerStringPoolCapacity: Int32,
    timestampAdapterPoolCapacity: Int32,
    utf8SinkSize: Int32)

  /** The values of a `HttpSettings` read by `HttpConnectionPoolsKeys`, in its order. */
  function HttpConnectionPoolsValues(s: HttpSettings): seq<Value> {
    [IntValue(s.connectionPoolInitialCapacity), IntValue(s.connectionStringPoolCapacity),
     IntValue(s.multipartHeaderBufferSize), LongValue(s.multipartIdleSpinCount)]
  }

  /** The values of a `HttpSettings` read by `HttpBuffersKeys`, in its order. */
  function HttpBuffersValues(s: HttpSettings): seq<Value> {
    [IntValue(s.recvBufferSize), IntValue(s.requestHeaderBufferSize),
     IntValue(s.responseHeaderBufferSize), IntValue(s.workerCount), IntValue(s.sendBufferSize)]
  }

  /** The values of a `HttpSettings` read by `StaticContentKeys`, in its order. */
  function StaticContentValues(s: HttpSettings): seq<Value> {
    [TextValue(s.indexFileName), TextValue(s.publicDirectory), BoolValue(s.abortBrokenUploads)]
  }

  /** The values of a `HttpSettings` read by `HttpNetLimitsKeys`, in its order. */
  function HttpNetLimitsValues(s: HttpSettings): seq<Value> {
    [IntValue(s.activeConnectionLimit), IntValue(s.eventCapacity), IntValue(s.ioQueueCapacity),
     LongValue(s.idleConnectionTimeout)]
  }

  /** The values of a `HttpSettings` read by `HttpNetBuffersKeys`, in its order. */
  function HttpNetBuffersValues(s: HttpSettings): seq<Value> {
    [IntValue(s.interestQueueCapacity), IntValue(s.listenBacklog), IntValue(s.sndBufSize),
     IntValue(s.rcvBufSize)]
  }

  /** The values of a `HttpSettings` read by `TextCachesKeys`, in its order. */
  function TextCachesValues(s: HttpSettings): seq<Value> {
    [TextValue(s.adapterSetConfigurationFileName), IntValue(s.dateAdapterPoolCapacity),
     IntValue(s.jsonCacheLimit), IntValue(s.jsonCacheSize)]
  }

  /** The values of a `HttpSettings` read by `TextRollBuffersKeys`, in its order. */
  function TextRollBuffersValues(s: HttpSettings): seq<Value> {
    [DoubleValue(s.maxRequiredDelimiterStdDev), IntValue(s.metadataStringPoolCapacity),
     IntValue(s.rollBufferLimit), IntValue(s.rollBufferSize)]
  }

  /** The values of a `HttpSettings` read by `TextPoolsKeys`, in its order. */
  function TextPoolsValues(s: HttpSettings): seq<Value> {
    [IntValue(s.textAnalysisMaxLines), IntValue(s.textLexerStringPoolCapacity),
     IntValue(s.timestampAdapterPoolCapacity), IntValue(s.utf8SinkSize)]
  }

  /** The values of a `HttpSettings`, in the order of `HttpKeys`. */
  function HttpValues(s: HttpSettings): seq<Value> {
    HttpConnectionPoolsValues(s)
    + HttpBuffersValues(s)
    + StaticContentValues(s)
    + HttpNetLimitsValues(s)
    + HttpNetBuffersValues(s)
    + TextCachesValues(s)
    + TextRollBuffersValues(s)
    + TextPoolsValues(s)
  }

  /** The settings read for the storage engine (lines 182-217). */
  datatype CairoSettings = CairoSettings(
    createAsSelectRetryCount: Int32,
    defaultMapType: string,
    defaultSymbolCacheFlag: bool,
    defaultSymbolCapacity: Int32,
    fileOperationRetryCount: Int32,
    idleCheckInterval: Int64,
    inactiveReaderTTL: Int64,
    inactiveWriterTTL: Int64,
    indexValueBlockSize: Int32,
    maxSwapFileCount: Int32,
    mkdirMode: Int32,
    parallelIndexThreshold: Int32,
    readerPoolMaxSegments: Int32,
    spinLockTimeoutUs: Int64,
    sqlCacheRows: Int32,
    sqlCacheBlocks: Int32,
    sqlCharacterStoreCapacity: Int32,
    sqlCharacterStoreSequencePoolCapacity: Int32,
    sqlColumnPoolCapacity: Int32,
    sqlCompactMapLoadFactor: real,
    sqlExpressionPoolCapacity: Int32,
    sqlFastMapLoadFactor: real,
    sqlJoinContextPoolCapacity: Int32,
    sqlLexerPoolCapacity: Int32,
    sqlMapKeyCapacity: Int32,
    sqlMapPageSize: Int32,
    sqlModelPoolCapacity: Int32,
    sqlSortKeyPageSize: Int32,
    sqlSortLightValuePageSize: Int32,
    sqlHashJoinValuePageSize: Int32,
    sqlTreePageSize: Int32,
    sqlHashJoinLightValuePageSize: Int32,
    sqlSortValuePageSize: Int32,
    workStealTimeoutNanos: Int64,
    parallelIndexingEnabled: bool,
    sqlJoinMetadataPageSize: Int32)

  /** The values of a `CairoSettings` read by `CairoDefaultsKeys`, in its order. */
  function CairoDefaultsValues(s: CairoSettings): seq<Value> {
    [IntValue(s.createAsSelectRetryCount), TextValue(s.defaultMapType),
     BoolValue(s.defaultSymbolCacheFlag), IntValue(s.defaultSymbolCapacity)]
  }

  /** The values of a `CairoSettings` read by `CairoTimingsKeys`, in its order. */
  function CairoTimingsValues(s: CairoSettings): seq<Value> {
    [IntValue(s.fileOperationRetryCount), LongValue(s.idleCheckInterval),
     LongValue(s.inactiveReaderTTL), LongValue(s.inactiveWriterTTL)]
  }

  /** The values of a `CairoSettings` read by `CairoIndexingKeys`, in its order. */
  function CairoIndexingValues(s: CairoSettings): seq<Value> {
    [IntValue(s.indexValueBlockSize), IntValue(s.maxSwapFileCount), IntValue(s.mkdirMode),
     IntValue(s.parallelIndexThreshold)]
  }

  /** The values of a `CairoSettings` read by `CairoCacheKeys`, in its order. */
  function CairoCacheValues(s: CairoSettings): seq<Value> {
    [IntValue(s.readerPoolMaxSegments), LongValue(s.spinLockTimeoutUs), IntValue(s.sqlCacheRows),
     IntValue(s.sqlCacheBlocks)]
  }

  /** The values of a `CairoSettings` read by `SqlStoresKeys`, in its order. */
  function SqlStoresValues(s: CairoSettings): seq<Value> {
    [IntValue(s.sqlCharacterStoreCapacity), IntValue(s.sqlCharacterStoreSequencePoolCapacity),
     IntValue(s.sqlColumnPoolCapacity), DoubleValue(s.sqlCompactMapLoadFactor)]
  }

  /** The values of a `CairoSettings` read by `SqlPoolsKeys`, in its order. */
  function SqlPoolsValues(s: CairoSettings): seq<Value> {
    [IntValue(s.sqlExpressionPoolCapacity), DoubleValue(s.sqlFastMapLoadFactor),
     IntValue(s.sqlJoinContextPoolCapacity), IntValue(s.sqlLexerPoolCapacity)]
  }

  /** The values of a `CairoSettings` read by `SqlPagesKeys`, in its order. */
  function SqlPagesValues(s: CairoSettings): seq<Value> {
    [IntValue(s.sqlMapKeyCapacity), IntValue(s.sqlMapPageSize), IntValue(s.sqlModelPoolCapacity),
     IntValue(s.sqlSortKeyPageSize)]
  }

  /** The values of a `CairoSettings` read by `SqlJoinPagesKeys`, in its order. */
  function SqlJoinPagesValues(s: CairoSettings): seq<Value> {
    [IntValue(s.sqlSortLightValuePageSize), IntValue(s.sqlHashJoinValuePageSize),
     IntValue(s.sqlTreePageSize), IntValue(s.sqlHashJoinLightValuePageSize)]
  }

  /** The values of a `CairoSettings` read by `CairoWorkersKeys`, in its order. */
  function CairoWorkersValues(s: CairoSettings): seq<Value> {
    [IntValue(s.sqlSortValuePageSize), LongValue(s.workStealTimeoutNanos),
     BoolValue(s.parallelIndexingEnabled), IntValue(s.sqlJoinMetadataPageSize)]
  }

  /** The values of a `CairoSettings`, in the order of `CairoKeys`. */
  function CairoValues(s: CairoSettings): seq<Value> {
    CairoDefaultsValues(s)
    + CairoTimingsValues(s)
    + CairoIndexingValues(s)
    + CairoCacheValues(s)
    + SqlStoresValues(s)
    + SqlPoolsValues(s)
    + SqlPagesValues(s)
    + SqlJoinPagesValues(s)
    + CairoWorkersValues(s)
  }

  /** The settings read for the UDP line receiver (lines 224-228). */
  datatype LineUdpSettings = LineUdpSettings(
    lineUdpGroupIPv4Address: Int32,
    lineUdpCommitRate: Int32,
    lineUdpMsgBufferSize: Int32,
    lineUdpMsgCount: Int32,
    lineUdpReceiveBufferSize: Int32)

  /** The values of a `LineUdpSettings`, in the order of `LineUdpKeys`. */
  function LineUdpValues(s: LineUdpSettings): seq<Value> {
    [IntValue(s.lineUdpGroupIPv4Address), IntValue(s.lineUdpCommitRate), IntValue(s.lineUdpMsgBufferSize), IntValue(s.lineUdpMsgCount), IntValue(s.lineUdpReceiveBufferSize)]
  }

  /*
   * The constructor body as runs of lookups split into groups of consecutive
   * lines, each group with its own table: a group's failure is the failure of
   * its table's walk, and a group's values are the values of that walk.
   */

  /**
   * The constructor's lookups for the HTTP server, the IO dispatcher and the text loader, lines 133-165, in order:
   * the error of the first that fails, or every value read.
   */
  method LookupHttp(nums: Numerics, props: Properties) returns (r: Result<HttpSettings, ConfigError>)
    ensures r.Failure? ==> ResolveAll(nums, props, HttpKeys) == Failure(r.error)
    ensures r.Success? ==> ResolveAll(nums, props, HttpKeys) == Success(HttpValues(r.value))
  {
    HttpKeysInOrder(nums, props);
    var group0 :- LookupHttpConnectionPools(nums, props);
    var group1 :- LookupHttpBuffers(nums, props);
    var group2 :- LookupStaticContent(nums, props);
    var group3 :- LookupHttpNetLimits(nums, props);
    var group4 :- LookupHttpNetBuffers(nums, props);
    var group5 :- LookupTextCaches(nums, props);
    var group6 :- LookupTextRollBuffers(nums, props);
    var group7 :- LookupTextPools(nums, props);
    return Success(HttpSettings(
      group0.0, group0.1, group0.2, group0.3, group1.0, group1.1, group1.2, group1.3, group1.4,
      group2.0, group2.1, group2.2, group3.0, group3.1, group3.2, group3.3, group4.0, group4.1,
      group4.2, group4.3, group5.0, group5.1, group5.2, group5.3, group6.0, group6.1, group6.2,
      group6.3, group7.0, group7.1, group7.2, group7.3));
  }

  /** The walk of `HttpKeys` is the walk of its groups, one after the other. */
  lemma HttpKeysInOrder(nums: Numerics, props: Properties)
    ensures ResolveAll(nums, props, HttpKeys) ==
      Then(Then(Then(Then(Then(Then(Then(ResolveAll(nums, props, HttpConnectionPoolsKeys), ResolveAll(nums, props, HttpBuffersKeys)), ResolveAll(nums, props, StaticContentKeys)), ResolveAll(nums, props, HttpNetLimitsKeys)), ResolveAll(nums, props, HttpNetBuffersKeys)), ResolveAll(nums, props, TextCachesKeys)), ResolveAll(nums, props, TextRollBuffersKeys)), ResolveAll(nums, props, TextPoolsKeys))
  {
    ResolveAllAppend(nums, props, HttpConnectionPoolsKeys, HttpBuffersKeys);
    ResolveAllAppend(nums, props, HttpConnectionPoolsKeys + HttpBuffersKeys, StaticContentKeys);
    ResolveAllAppend(nums, props, HttpConnectionPoolsKeys + HttpBuffersKeys + StaticContentKeys, HttpNetLimitsKeys);
    ResolveAllAppend(nums, props, HttpConnectionPoolsKeys + HttpBuffersKeys + StaticContentKeys + HttpNetLimitsKeys, HttpNetBuffersKeys);
    ResolveAllAppend(nums, props, HttpConnectionPoolsKeys + HttpBuffersKeys + StaticContentKeys + HttpNetLimitsKeys + HttpNetBuffersKeys, TextCachesKeys);
    ResolveAllAppend(nums, props, HttpConnectionPoolsKeys + HttpBuffersKeys + StaticContentKeys + HttpNetLimitsKeys + HttpNetBuffersKeys + TextCachesKeys, TextRollBuffersKeys);
    ResolveAllAppend(nums, props, HttpConnectionPoolsKeys + HttpBuffersKeys + StaticContentKeys + HttpNetLimitsKeys + HttpNetBuffersKeys + TextCachesKeys + TextRollBuffersKeys, TextPoolsKeys);
  }

  /** Lines 133-136, the connection pools and the multipart parser, in order. */
  method LookupHttpConnectionPools(nums: Numerics, props: Properties) returns (r: Result<(Int32, Int32, Int32, Int64), ConfigError>)
    ensures r.Failure? ==> ResolveAll(nums, props, HttpConnectionPoolsKeys) == Failure(r.error)
    ensures r.Success? ==> ResolveAll(nums, props, HttpConnectionPoolsKeys) == Success([IntValue(r.value.0), IntValue(r.value.1), IntValue(r.value.2), LongValue(r.value.3)])
  {
    ghost var done: seq<Value> := [];
    Start(nums, props, HttpConnectionPoolsKeys);
    var connectionPoolInitialCapacity;
    connectionPoolInitialCapacity, done :- GetIntStep(nums, props, HttpConnectionPoolsKeys, done, 0, "http.connection.pool.initial.capacity", 16);
    var connectionStringPoolCapacity;
    connectionStringPoolCapacity, done :- GetIntStep(nums, props, HttpConnectionPoolsKeys, done, 1, "http.connection.string.pool.capacity", 128);
    var multipartHeaderBufferSize;
    multipartHeaderBufferSize, done :- GetIntSizeStep(nums, props, HttpConnectionPoolsKeys, done, 2, "http.multipart.header.buffer.size", 512);
    var multipartIdleSpinCount;
    multipartIdleSpinCount, done :- GetLongStep(nums, props, HttpConnectionPoolsKeys, done, 3, "http.multipart.idle.spin.count", 10_000);
    assert done == [IntValue(connectionPoolInitialCapacity), IntValue(connectionStringPoolCapacity), IntValue(multipartHeaderBufferSize), LongValue(multipartIdleSpinCount)];
    Finish(nums, props, HttpConnectionPoolsKeys, done);
    return Success((connectionPoolInitialCapacity, connectionStringPoolCapacity, multipartHeaderBufferSize, multipartIdleSpinCount));
  }

  /** Lines 137-141, the request and response buffers and the worker count, in order. */
  method LookupHttpBuffers(nums: Numerics, props: Properties) returns (r: Result<(Int32, Int32, Int32, Int32, Int32), ConfigError>)
    ensures r.Failure? ==> ResolveAll(nums, props, HttpBuffersKeys) == Failure(r.error)
    ensures r.Success? ==> ResolveAll(nums, props, HttpBuffersKeys) == Success([IntValue(r.value.0), IntValue(r.value.1), IntValue(r.value.2), IntValue(r.value.3), IntValue(r.value.4)])
  {
    ghost var done: seq<Value> := [];
    Start(nums, props, HttpBuffersKeys);
    var recvBufferSize;
    recvBufferSize, done :- GetIntSizeStep(nums, props, HttpBuffersKeys, done, 0, "http.receive.buffer.size", 1024 * 1024);
    var requestHeaderBufferSize;
    requestHeaderBufferSize, done :- GetIntSizeStep(nums, props, HttpBuffersKeys, done, 1, "http.request.header.buffer.size", 1024);
    var responseHeaderBufferSize;
    responseHeaderBufferSize, done :- GetIntSizeStep(nums, props, HttpBuffersKeys, done, 2, "http.response.header.buffer.size", 1024 * 1024);
    var workerCount;
    workerCount, done :- GetIntStep(nums, props, HttpBuffersKeys, done, 3, "http.worker.count", 2);
    var sendBufferSize;
    sendBufferSize, done :- GetIntSizeStep(nums, props, HttpBuffersKeys, done, 4, "http.send.buffer.size", 2 * 1024 * 1024);
    assert done == [IntValue(recvBufferSize), IntValue(requestHeaderBufferSize), IntValue(responseHeaderBufferSize), IntValue(workerCount), IntValue(sendBufferSize)];
    Finish(nums, props, HttpBuffersKeys, done);
    return Success((recvBufferSize, requestHeaderBufferSize, responseHeaderBufferSize, workerCount, sendBufferSize));
  }

  /** Lines 142-144, the static content settings and the broken upload policy, in order. */
  method LookupStaticContent(nums: Numerics, props: Properties) returns (r: Result<(string, string, bool), ConfigError>)
    ensures r.Failure? ==> ResolveAll(nums, props, StaticContentKeys) == Failure(r.error)
    ensures r.Success? ==> ResolveAll(nums, props, StaticContentKeys) == Success([TextValue(r.value.0), TextValue(r.value.1), BoolValue(r.value.2)])
  {
    ghost var done: seq<Value> := [];
    Start(nums, props, StaticContentKeys);
    var indexFileName;
    indexFileName, done := GetStringStep(nums, props, StaticContentKeys, done, 0, "http.static.index.file.name", "index.html");
    var publicDirectory;
    publicDirectory, done := GetStringStep(nums, props, StaticContentKeys, done, 1, "http.static.pubic.directory", "public");
    var abortBrokenUploads;
    abortBrokenUploads, done := GetBooleanStep(nums, props, StaticContentKeys, done, 2, "http.text.abort.broken.uploads", true);
    assert done == [TextValue(indexFileName), TextValue(publicDirectory), BoolValue(abortBrokenUploads)];
    Finish(nums, props, StaticContentKeys, done);
    return Success((indexFileName, publicDirectory, abortBrokenUploads));
  }

  /** Lines 145-148, the dispatcher's connection limit, event and IO queues and idle timeout, in order. */
  method LookupHttpNetLimits(nums: Numerics, props: Properties) returns (r: Result<(Int32, Int32, Int32, Int64), ConfigError>)
    ensures r.Failure? ==> ResolveAll(nums, props, HttpNetLimitsKeys) == Failure(r.error)
    ensures r.Success? ==> ResolveAll(nums, props, HttpNetLimitsKeys) == Success([IntValue(r.value.0), IntValue(r.value.1), IntValue(r.value.2), LongValue(r.value.3)])
  {
    ghost var done: seq<Value> := [];
    Start(nums, props, HttpNetLimitsKeys);
    var activeConnectionLimit;
    activeConnectionLimit, done :- GetIntStep(nums, props, HttpNetLimitsKeys, done, 0, "http.net.active.connection.limit", 256);
    var eventCapacity;
    eventCapacity, done :- GetIntStep(nums, props, HttpNetLimitsKeys, done, 1, "http.net.event.capacity", 1024);
    var ioQueueCapacity;
    ioQueueCapacity, done :- GetIntStep(nums, props, HttpNetLimitsKeys, done, 2, "http.net.io.queue.capacity", 1024);
    var idleConnectionTimeout;
    idleConnectionTimeout, done :- GetLongStep(nums, props, HttpNetLimitsKeys, done, 3, "http.net.idle.connection.timeout", 5 * 60 * 1000);
    assert done == [IntValue(activeConnectionLimit), IntValue(eventCapacity), IntValue(ioQueueCapacity), LongValue(idleConnectionTimeout)];
    Finish(nums, props, HttpNetLimitsKeys, done);
    return Success((activeConnectionLimit, eventCapacity, ioQueueCapacity, idleConnectionTimeout));
  }

  /** Lines 149-152, the dispatcher's interest queue, listen backlog and socket buffers, in order. */
  method LookupHttpNetBuffers(nums: Numerics, props: Properties) returns (r: Result<(Int32, Int32, Int32, Int32), ConfigError>)
    ensures r.Failure? ==> ResolveAll(nums, props, HttpNetBuffersKeys) == Failure(r.error)
    ensures r.Success? ==> ResolveAll(nums, props, HttpNetBuffersKeys) == Success([IntValue(r.value.0), IntValue(r.value.1), IntValue(r.value.2), IntValue(r.value.3)])
  {
    ghost var done: seq<Value> := [];
    Start(nums, props, HttpNetBuffersKeys);
    var interestQueueCapacity;
    interestQueueCapacity, done :- GetIntStep(nums, props, HttpNetBuffersKeys, done, 0, "http.net.interest.queue.capacity", 1024);
    var listenBacklog;
    listenBacklog, done :- GetIntStep(nums, props, HttpNetBuffersKeys, done, 1, "http.net.listen.backlog", 256);
    var sndBufSize;
    sndBufSize, done :- GetIntSizeStep(nums, props, HttpNetBuffersKeys, done, 2, "http.net.snd.buf.size", 2 * 1024 * 1024);
    var rcvBufSize;
    rcvBufSize, done :- GetIntSizeStep(nums, props, HttpNetBuffersKeys, done, 3, "http.net.rcv.buf.size", 2 * 1024 * 1024);
    assert done == [IntValue(interestQueueCapacity), IntValue(listenBacklog), IntValue(sndBufSize), IntValue(rcvBufSize)];
    Finish(nums, props, HttpNetBuffersKeys, done);
    return Success((interestQueueCapacity, listenBacklog, sndBufSize, rcvBufSize));
  }

  /** Lines 153-156, the text loader's adapter file, date adapter pool and JSON cache, in order. */
  method LookupTextCaches(nums: Numerics, props: Properties) returns (r: Result<(string, Int32, Int32, Int32), ConfigError>)
    ensures r.Failure? ==> ResolveAll(nums, props, TextCachesKeys) == Failure(r.error)
    ensures r.Success? ==> ResolveAll(nums, props, TextCachesKeys) == Success([TextValue(r.value.0), IntValue(r.value.1), IntValue(r.value.2), IntValue(r.value.3)])
  {
    ghost var done: seq<Value> := [];
    Start(nums, props, TextCachesKeys);
    var adapterSetConfigurationFileName;
    adapterSetConfigurationFileName, done := GetStringStep(nums, props, TextCachesKeys, done, 0, "http.text.adapter.set.config", "/text_loader.json");
    var dateAdapterPoolCapacity;
    dateAdapterPoolCapacity, done :- GetIntStep(nums, props, TextCachesKeys, done, 1, "http.text.date.adapter.pool.capacity", 16);
    var jsonCacheLimit;
    jsonCacheLimit, done :- GetIntSizeStep(nums, props, TextCachesKeys, done, 2, "http.text.json.cache.limit", 16384);
    var jsonCacheSize;
    jsonCacheSize, done :- GetIntSizeStep(nums, props, TextCachesKeys, done, 3, "http.text.json.cache.size", 8192);
    assert done == [TextValue(adapterSetConfigurationFileName), IntValue(dateAdapterPoolCapacity), IntValue(jsonCacheLimit), IntValue(jsonCacheSize)];
    Finish(nums, props, TextCachesKeys, done);
    return Success((adapterSetConfigurationFileName, dateAdapterPoolCapacity, jsonCacheLimit, jsonCacheSize));
  }

  /** Lines 157-161, the text loader's delimiter tolerance, metadata pool and roll buffer, in order. */
  method LookupTextRollBuffers(nums: Numerics, props: Properties) returns (r: Result<(real, Int32, Int32, Int32), ConfigError>)
    ensures r.Failure? ==> ResolveAll(nums, props, TextRollBuffersKeys) == Failure(r.error)
    ensures r.Success? ==> ResolveAll(nums, props, TextRollBuffersKeys) == Success([DoubleValue(r.value.0), IntValue(r.value.1), IntValue(r.value.2), IntValue(r.value.3)])
  {
    ghost var done: seq<Value> := [];
    Start(nums, props, TextRollBuffersKeys);
    var maxRequiredDelimiterStdDev;
    maxRequiredDelimiterStdDev, done :- GetDoubleStep(nums, props, TextRollBuffersKeys, done, 0, "http.text.max.required.delimiter.stddev", 0.1222);
    var metadataStringPoolCapacity;
    metadataStringPoolCapacity, done :- GetIntStep(nums, props, TextRollBuffersKeys, done, 1, "http.text.metadata.string.pool.capacity", 128);
    var rollBufferLimit;
    rollBufferLimit, done :- GetIntSizeStep(nums, props, TextRollBuffersKeys, done, 2, "http.text.roll.buffer.limit", 4096);
    var rollBufferSize;
    rollBufferSize, done :- GetIntSizeStep(nums, props, TextRollBuffersKeys, done, 3, "http.text.roll.buffer.size", 1024);
    assert done == [DoubleValue(maxRequiredDelimiterStdDev), IntValue(metadataStringPoolCapacity), IntValue(rollBufferLimit), IntValue(rollBufferSize)];
    Finish(nums, props, TextRollBuffersKeys, done);
    return Success((maxRequiredDelimiterStdDev, metadataStringPoolCapacity, rollBufferLimit, rollBufferSize));
  }

  /** Lines 162-165, the text loader's analysis limit, lexer and timestamp pools and UTF-8 sink, in order. */
  method LookupTextPools(nums: Numerics, props: Properties) returns (r: Result<(Int32, Int32, Int32, Int32), ConfigError>)
    ensures r.Failure? ==> ResolveAll(nums, props, TextPoolsKeys) == Failure(r.error)
    ensures r.Success? ==> ResolveAll(nums, props, TextPoolsKeys) == Success([IntValue(r.value.0), IntValue(r.value.1), IntValue(r.value.2), IntValue(r.value.3)])
  {
    ghost var done: seq<Value> := [];
    Start(nums, props, TextPoolsKeys);
    var textAnalysisMaxLines;
    textAnalysisMaxLines, done :- GetIntStep(nums, props, TextPoolsKeys, done, 0, "http.text.analysis.max.lines", 1000);
    var textLexerStringPoolCapacity;
    textLexerStringPoolCapacity, done :- GetIntStep(nums, props, TextPoolsKeys, done, 1, "http.text.lexer.string.pool.capacity", 64);
    var timestampAdapterPoolCapacity;
    timestampAdapterPoolCapacity, done :- GetIntStep(nums, props, TextPoolsKeys, done, 2, "http.text.timestamp.adapter.pool.capacity", 64);
    var utf8SinkSize;
    utf8SinkSize, done :- GetIntSizeStep(nums, props, TextPoolsKeys, done, 3, "http.text.utf8.sink.size", 4096);
    assert done == [IntValue(textAnalysisMaxLines), IntValue(textLexerStringPoolCapacity), IntValue(timestampAdapterPoolCapacity), IntValue(utf8SinkSize)];
    Finish(nums, props, TextPoolsKeys, done);
    return Success((textAnalysisMaxLines, textLexerStringPoolCapacity, timestampAdapterPoolCapacity, utf8SinkSize));
  }

  /**
   * The constructor's lookups for the storage engine, lines 182-217, in order:
   * the error of the first that fails, or every value read.
   */
  method LookupCairo(nums: Numerics, props: Properties) returns (r: Result<CairoSettings, ConfigError>)
    ensures r.Failure? ==> ResolveAll(nums, props, CairoKeys) == Failure(r.error)
    ensures r.Success? ==> ResolveAll(nums, props, CairoKeys) == Success(CairoValues(r.value))
  {
    CairoKeysInOrder(nums, props);
    var group0 :- LookupCairoDefaults(nums, props);
    var group1 :- LookupCairoTimings(nums, props);
    var group2 :- LookupCairoIndexing(nums, props);
    var group3 :- LookupCairoCache(nums, props);
    var group4 :- LookupSqlStores(nums, props);
    var group5 :- LookupSqlPools(nums, props);
    var group6 :- LookupSqlPages(nums, props);
    var group7 :- LookupSqlJoinPages(nums, props);
    var group8 :- LookupCairoWorkers(nums, props);
    return Success(CairoSettings(
      group0.0, group0.1, group0.2, group0.3, group1.0, group1.1, group1.2, group1.3, group2.0,
      group2.1, group2.2, group2.3, group3.0, group3.1, group3.2, group3.3, group4.0, group4.1,
      group4.2, group4.3, group5.0, group5.1, group5.2, group5.3, group6.0, group6.1, group6.2,
      group6.3, group7.0, group7.1, group7.2, group7.3, group8.0, group8.1, group8.2, group8.3));
  }

  /** The walk of `CairoKeys` is the walk of its groups, one after the other. */
  lemma CairoKeysInOrder(nums: Numerics, props: Properties)
    ensures ResolveAll(nums, props, CairoKeys) ==
      Then(Then(Then(Then(Then(Then(Then(Then(ResolveAll(nums, props, CairoDefaultsKeys), ResolveAll(nums, props, CairoTimingsKeys)), ResolveAll(nums, props, CairoIndexingKeys)), ResolveAll(nums, props, CairoCacheKeys)), ResolveAll(nums, props, SqlStoresKeys)), ResolveAll(nums, props, SqlPoolsKeys)), ResolveAll(nums, props, SqlPagesKeys)), ResolveAll(nums, props, SqlJoinPagesKeys)), ResolveAll(nums, props, CairoWorkersKeys))
  {
    ResolveAllAppend(nums, props, CairoDefaultsKeys, CairoTimingsKeys);
    ResolveAllAppend(nums, props, CairoDefaultsKeys + CairoTimingsKeys, CairoIndexingKeys);
    ResolveAllAppend(nums, props, CairoDefaultsKeys + CairoTimingsKeys + CairoIndexingKeys, CairoCacheKeys);
    ResolveAllAppend(nums, props, CairoDefaultsKeys + CairoTimingsKeys + CairoIndexingKeys + CairoCacheKeys, SqlStoresKeys);
    ResolveAllAppend(nums, props, CairoDefaultsKeys + CairoTimingsKeys + CairoIndexingKeys + CairoCacheKeys + SqlStoresKeys, SqlPoolsKeys);
    ResolveAllAppend(nums, props, CairoDefaultsKeys + CairoTimingsKeys + CairoIndexingKeys + CairoCacheKeys + SqlStoresKeys + SqlPoolsKeys, SqlPagesKeys);
    ResolveAllAppend(nums, props, CairoDefaultsKeys + CairoTimingsKeys + CairoIndexingKeys + CairoCacheKeys + SqlStoresKeys + SqlPoolsKeys + SqlPagesKeys, SqlJoinPagesKeys);
    ResolveAllAppend(nums, props, CairoDefaultsKeys + CairoTimingsKeys + CairoIndexingKeys + CairoCacheKeys + SqlStoresKeys + SqlPoolsKeys + SqlPagesKeys + SqlJoinPagesKeys, CairoWorkersKeys);
  }

  /** Lines 182-185, the create-as-select retry count, map type and symbol defaults, in order. */
  method LookupCairoDefaults(nums: Numerics, props: Properties) returns (r: Result<(Int32, string, bool, Int32), ConfigError>)
    ensures r.Failure? ==> ResolveAll(nums, props, CairoDefaultsKeys) == Failure(r.error)
    ensures r.Success? ==> ResolveAll(nums, props, CairoDefaultsKeys) == Success([IntValue(r.value.0), TextValue(r.value.1), BoolValue(r.value.2), IntValue(r.value.3)])
  {
    ghost var done: seq<Value> := [];
    Start(nums, props, CairoDefaultsKeys);
    var createAsSelectRetryCount;
    createAsSelectRetryCount, done :- GetIntStep(nums, props, CairoDefaultsKeys, done, 0, "cairo.create.as.select.retry.count", 5);
    var defaultMapType;
    defaultMapType, done := GetStringStep(nums, props, CairoDefaultsKeys, done, 1, "cairo.default.map.type", "fast");
    var defaultSymbolCacheFlag;
    defaultSymbolCacheFlag, done := GetBooleanStep(nums, props, CairoDefaultsKeys, done, 2, "cairo.default.symbol.cache.flag", false);
    var defaultSymbolCapacity;
    defaultSymbolCapacity, done :- GetIntStep(nums, props, CairoDefaultsKeys, done, 3, "cairo.default.symbol.capacity", 256);
    assert done == [IntValue(createAsSelectRetryCount), TextValue(defaultMapType), BoolValue(defaultSymbolCacheFlag), IntValue(defaultSymbolCapacity)];
    Finish(nums, props, CairoDefaultsKeys, done);
    return Success((createAsSelectRetryCount, defaultMapType, defaultSymbolCacheFlag, defaultSymbolCapacity));
  }

  /** Lines 186-189, the file retry count, idle check interval and pool TTLs, in order. */
  method LookupCairoTimings(nums: Numerics, props: Properties) returns (r: Result<(Int32, Int64, Int64, Int64), ConfigError>)
    ensures r.Failure? ==> ResolveAll(nums, props, CairoTimingsKeys) == Failure(r.error)
    ensures r.Success? ==> ResolveAll(nums, props, CairoTimingsKeys) == Success([IntValue(r.value.0), LongValue(r.value.1), LongValue(r.value.2), LongValue(r.value.3)])
  {
    ghost var done: seq<Value> := [];
    Start(nums, props, CairoTimingsKeys);
    var fileOperationRetryCount;
    fileOperationRetryCount, done :- GetIntStep(nums, props, CairoTimingsKeys, done, 0, "cairo.file.operation.retry.count", 30);
    var idleCheckInterval;
    idleCheckInterval, done :- GetLongStep(nums, props, CairoTimingsKeys, done, 1, "cairo.idle.check.interval", 100);
    var inactiveReaderTTL;
    inactiveReaderTTL, done :- GetLongStep(nums, props, CairoTimingsKeys, done, 2, "cairo.inactive.reader.ttl", -10000);
    var inactiveWriterTTL;
    inactiveWriterTTL, done :- GetLongStep(nums, props, CairoTimingsKeys, done, 3, "cairo.inactive.writer.ttl", -10000);
    assert done == [IntValue(fileOperationRetryCount), LongValue(idleCheckInterval), LongValue(inactiveReaderTTL), LongValue(inactiveWriterTTL)];
    Finish(nums, props, CairoTimingsKeys, done);
    return Success((fileOperationRetryCount, idleCheckInterval, inactiveReaderTTL, inactiveWriterTTL));
  }

  /** Lines 190-193, the index block size, swap file limit, directory mode and index threshold, in order. */
  method LookupCairoIndexing(nums: Numerics, props: Properties) returns (r: Result<(Int32, Int32, Int32, Int32), ConfigError>)
    ensures r.Failure? ==> ResolveAll(nums, props, CairoIndexingKeys) == Failure(r.error)
    ensures r.Success? ==> ResolveAll(nums, props, CairoIndexingKeys) == Success([IntValue(r.value.0), IntValue(r.value.1), IntValue(r.value.2), IntValue(r.value.3)])
  {
    ghost var done: seq<Value> := [];
    Start(nums, props, CairoIndexingKeys);
    var indexValueBlockSize;
    indexValueBlockSize, done :- CeilPow2SizeStep(nums, props, CairoIndexingKeys, done, 0, "cairo.index.value.block.size", 256);
    var maxSwapFileCount;
    maxSwapFileCount, done :- GetIntStep(nums, props, CairoIndexingKeys, done, 1, "cairo.max.swap.file.count", 30);
    var mkdirMode;
    mkdirMode, done :- GetIntStep(nums, props, CairoIndexingKeys, done, 2, "cairo.mkdir.mode", 509);
    var parallelIndexThreshold;
    parallelIndexThreshold, done :- GetIntStep(nums, props, CairoIndexingKeys, done, 3, "cairo.parallel.index.threshold", 100000);
    assert done == [IntValue(indexValueBlockSize), IntValue(maxSwapFileCount), IntValue(mkdirMode), IntValue(parallelIndexThreshold)];
    Finish(nums, props, CairoIndexingKeys, done);
    return Success((indexValueBlockSize, maxSwapFileCount, mkdirMode, parallelIndexThreshold));
  }

  /** Lines 194-197, the reader pool, spin lock timeout and SQL cache, in order. */
  method LookupCairoCache(nums: Numerics, props: Properties) returns (r: Result<(Int32, Int64, Int32, Int32), ConfigError>)
    ensures r.Failure? ==> ResolveAll(nums, props, CairoCacheKeys) == Failure(r.error)
    ensures r.Success? ==> ResolveAll(nums, props, CairoCacheKeys) == Success([IntValue(r.value.0), LongValue(r.value.1), IntValue(r.value.2), IntValue(r.value.3)])
  {
    ghost var done: seq<Value> := [];
    Start(nums, props, CairoCacheKeys);
    var readerPoolMaxSegments;
    readerPoolMaxSegments, done :- GetIntStep(nums, props, CairoCacheKeys, done, 0, "cairo.reader.pool.max.segments", 5);
    var spinLockTimeoutUs;
    spinLockTimeoutUs, done :- GetLongStep(nums, props, CairoCacheKeys, done, 1, "cairo.spin.lock.timeout", 1_000_000);
    var sqlCacheRows;
    sqlCacheRows, done :- GetIntStep(nums, props, CairoCacheKeys, done, 2, "cairo.cache.rows", 16);
    var sqlCacheBlocks;
    sqlCacheBlocks, done :- GetIntSizeStep(nums, props, CairoCacheKeys, done, 3, "cairo.cache.blocks", 4);
    assert done == [IntValue(readerPoolMaxSegments), LongValue(spinLockTimeoutUs), IntValue(sqlCacheRows), IntValue(sqlCacheBlocks)];
    Finish(nums, props, CairoCacheKeys, done);
    return Success((readerPoolMaxSegments, spinLockTimeoutUs, sqlCacheRows, sqlCacheBlocks));
  }

  /** Lines 198-201, the SQL character store, column pool and compact map, in order. */
  method LookupSqlStores(nums: Numerics, props: Properties) returns (r: Result<(Int32, Int32, Int32, real), ConfigError>)
    ensures r.Failure? ==> ResolveAll(nums, props, SqlStoresKeys) == Failure(r.error)
    ensures r.Success? ==> ResolveAll(nums, props, SqlStoresKeys) == Success([IntValue(r.value.0), IntValue(r.value.1), IntValue(r.value.2), DoubleValue(r.value.3)])
  {
    ghost var done: seq<Value> := [];
    Start(nums, props, SqlStoresKeys);
    var sqlCharacterStoreCapacity;
    sqlCharacterStoreCapacity, done :- GetIntStep(nums, props, SqlStoresKeys, done, 0, "cairo.character.store.capacity", 1024);
    var sqlCharacterStoreSequencePoolCapacity;
    sqlCharacterStoreSequencePoolCapacity, done :- GetIntStep(nums, props, SqlStoresKeys, done, 1, "cairo.character.store.sequence.pool.capacity", 64);
    var sqlColumnPoolCapacity;
    sqlColumnPoolCapacity, done :- GetIntStep(nums, props, SqlStoresKeys, done, 2, "cairo.column.pool.capacity", 4096);
    var sqlCompactMapLoadFactor;
    sqlCompactMapLoadFactor, done :- GetDoubleStep(nums, props, SqlStoresKeys, done, 3, "cairo.compact.map.load.factor", 0.7);
    assert done == [IntValue(sqlCharacterStoreCapacity), IntValue(sqlCharacterStoreSequencePoolCapacity), IntValue(sqlColumnPoolCapacity), DoubleValue(sqlCompactMapLoadFactor)];
    Finish(nums, props, SqlStoresKeys, done);
    return Success((sqlCharacterStoreCapacity, sqlCharacterStoreSequencePoolCapacity, sqlColumnPoolCapacity, sqlCompactMapLoadFactor));
  }

  /** Lines 202-205, the SQL expression, join context and lexer pools and the fast map, in order. */
  method LookupSqlPools(nums: Numerics, props: Properties) returns (r: Result<(Int32, real, Int32, Int32), ConfigError>)
    ensures r.Failure? ==> ResolveAll(nums, props, SqlPoolsKeys) == Failure(r.error)
    ensures r.Success? ==> ResolveAll(nums, props, SqlPoolsKeys) == Success([IntValue(r.value.0), DoubleValue(r.value.1), IntValue(r.value.2), IntValue(r.value.3)])
  {
    ghost var done: seq<Value> := [];
    Start(nums, props, SqlPoolsKeys);
    var sqlExpressionPoolCapacity;
    sqlExpressionPoolCapacity, done :- GetIntStep(nums, props, SqlPoolsKeys, done, 0, "cairo.expression.pool.capacity", 8192);
    var sqlFastMapLoadFactor;
    sqlFastMapLoadFactor, done :- GetDoubleStep(nums, props, SqlPoolsKeys, done, 1, "cairo.fast.map.load.factor", 0.5);
    var sqlJoinContextPoolCapacity;
    sqlJoinContextPoolCapacity, done :- GetIntStep(nums, props, SqlPoolsKeys, done, 2, "cairo.sql.join.context.pool.capacity", 64);
    var sqlLexerPoolCapacity;
    sqlLexerPoolCapacity, done :- GetIntStep(nums, props, SqlPoolsKeys, done, 3, "cairo.lexer.pool.capacity", 2048);
    assert done == [IntValue(sqlExpressionPoolCapacity), DoubleValue(sqlFastMapLoadFactor), IntValue(sqlJoinContextPoolCapacity), IntValue(sqlLexerPoolCapacity)];
    Finish(nums, props, SqlPoolsKeys, done);
    return Success((sqlExpressionPoolCapacity, sqlFastMapLoadFactor, sqlJoinContextPoolCapacity, sqlLexerPoolCapacity));
  }

  /** Lines 206-209, the SQL map, model pool and sort key pages, in order. */
  method LookupSqlPages(nums: Numerics, props: Properties) returns (r: Result<(Int32, Int32, Int32, Int32), ConfigError>)
    ensures r.Failure? ==> ResolveAll(nums, props, SqlPagesKeys) == Failure(r.error)
    ensures r.Success? ==> ResolveAll(nums, props, SqlPagesKeys) == Success([IntValue(r.value.0), IntValue(r.value.1), IntValue(r.value.2), IntValue(r.value.3)])
  {
    ghost var done: seq<Value> := [];
    Start(nums, props, SqlPagesKeys);
    var sqlMapKeyCapacity;
    sqlMapKeyCapacity, done :- GetIntStep(nums, props, SqlPagesKeys, done, 0, "cairo.sql.map.key.capacity", 2048);
    var sqlMapPageSize;
    sqlMapPageSize, done :- GetIntSizeStep(nums, props, SqlPagesKeys, done, 1, "cairo.sql.map.page.size", 4 * 1024 * 1024);
    var sqlModelPoolCapacity;
    sqlModelPoolCapacity, done :- GetIntStep(nums, props, SqlPagesKeys, done, 2, "cairo.model.pool.capacity", 1024);
    var sqlSortKeyPageSize;
    sqlSortKeyPageSize, done :- GetIntSizeStep(nums, props, SqlPagesKeys, done, 3, "cairo.sql.sort.key.page.size", 4 * 1024 * 1024);
    assert done == [IntValue(sqlMapKeyCapacity), IntValue(sqlMapPageSize), IntValue(sqlModelPoolCapacity), IntValue(sqlSortKeyPageSize)];
    Finish(nums, props, SqlPagesKeys, done);
    return Success((sqlMapKeyCapacity, sqlMapPageSize, sqlModelPoolCapacity, sqlSortKeyPageSize));
  }

  /** Lines 210-213, the SQL sort and hash join value pages and tree pages, in order. */
  method LookupSqlJoinPages(nums: Numerics, props: Properties) returns (r: Result<(Int32, Int32, Int32, Int32), ConfigError>)
    ensures r.Failure? ==> ResolveAll(nums, props, SqlJoinPagesKeys) == Failure(r.error)
    ensures r.Success? ==> ResolveAll(nums, props, SqlJoinPagesKeys) == Success([IntValue(r.value.0), IntValue(r.value.1), IntValue(r.value.2), IntValue(r.value.3)])
  {
    ghost var done: seq<Value> := [];
    Start(nums, props, SqlJoinPagesKeys);
    var sqlSortLightValuePageSize;
    sqlSortLightValuePageSize, done :- GetIntSizeStep(nums, props, SqlJoinPagesKeys, done, 0, "cairo.sql.sort.light.value.page.size", 1048576);
    var sqlHashJoinValuePageSize;
    sqlHashJoinValuePageSize, done :- GetIntSizeStep(nums, props, SqlJoinPagesKeys, done, 1, "cairo.sql.hash.join.value.page.size", 16777216);
    var sqlTreePageSize;
    sqlTreePageSize, done :- GetIntSizeStep(nums, props, SqlJoinPagesKeys, done, 2, "cairo.sql.tree.page.size", 4 * 1024 * 1024);
    var sqlHashJoinLightValuePageSize;
    sqlHashJoinLightValuePageSize, done :- GetIntSizeStep(nums, props, SqlJoinPagesKeys, done, 3, "cairo.sql.hash.join.light.value.page.size", 1048576);
    assert done == [IntValue(sqlSortLightValuePageSize), IntValue(sqlHashJoinValuePageSize), IntValue(sqlTreePageSize), IntValue(sqlHashJoinLightValuePageSize)];
    Finish(nums, props, SqlJoinPagesKeys, done);
    return Success((sqlSortLightValuePageSize, sqlHashJoinValuePageSize, sqlTreePageSize, sqlHashJoinLightValuePageSize));
  }

  /** Lines 214-217, the last SQL pages, work stealing and parallel indexing, in order. */
  method LookupCairoWorkers(nums: Numerics, props: Properties) returns (r: Result<(Int32, Int64, bool, Int32), ConfigError>)
    ensures r.Failure? ==> ResolveAll(nums, props, CairoWorkersKeys) == Failure(r.error)
    ensures r.Success? ==> ResolveAll(nums, props, CairoWorkersKeys) == Success([IntValue(r.value.0), LongValue(r.value.1), BoolValue(r.value.2), IntValue(r.value.3)])
  {
    ghost var done: seq<Value> := [];
    Start(nums, props, CairoWorkersKeys);
    var sqlSortValuePageSize;
    sqlSortValuePageSize, done :- GetIntSizeStep(nums, props, CairoWorkersKeys, done, 0, "cairo.sql.sort.value.page.size", 16777216);
    var workStealTimeoutNanos;
    workStealTimeoutNanos, done :- GetLongStep(nums, props, CairoWorkersKeys, done, 1, "cairo.work.steal.timeout.nanos", 10_000);
    var parallelIndexingEnabled;
    parallelIndexingEnabled, done := GetBooleanStep(nums, props, CairoWorkersKeys, done, 2, "cairo.parallel.indexing.enabled", true);
    var sqlJoinMetadataPageSize;
    sqlJoinMetadataPageSize, done :- GetIntSizeStep(nums, props, CairoWorkersKeys, done, 3, "cairo.sql.join.metadata.page.size", 16384);
    assert done == [IntValue(sqlSortValuePageSize), LongValue(workStealTimeoutNanos), BoolValue(parallelIndexingEnabled), IntValue(sqlJoinMetadataPageSize)];
    Finish(nums, props, CairoWorkersKeys, done);
    return Success((sqlSortValuePageSize, workStealTimeoutNanos, parallelIndexingEnabled, sqlJoinMetadataPageSize));
  }

  /** Lines 224-228, the UDP line receiver's group, commit rate and buffers, in order. */
  method LookupLineUdp(nums: Numerics, props: Properties) returns (r: Result<LineUdpSettings, ConfigError>)
    ensures r.Failure? ==> ResolveAll(nums, props, LineUdpKeys) == Failure(r.error)
    ensures r.Success? ==> ResolveAll(nums, props, LineUdpKeys) == Success(LineUdpValues(r.value))
  {
    ghost var done: seq<Value> := [];
    Start(nums, props, LineUdpKeys);
    var lineUdpGroupIPv4Address;
    lineUdpGroupIPv4Address, done :- GetIPv4AddressStep(nums, props, LineUdpKeys, done, 0, "line.udp.join", "232.1.2.3");
    var lineUdpCommitRate;
    lineUdpCommitRate, done :- GetIntStep(nums, props, LineUdpKeys, done, 1, "line.udp.commit.rate", 10_000);
    var lineUdpMsgBufferSize;
    lineUdpMsgBufferSize, done :- GetIntSizeStep(nums, props, LineUdpKeys, done, 2, "line.udp.msg.buffer.size", 1024 * 1024);
    var lineUdpMsgCount;
    lineUdpMsgCount, done :- GetIntStep(nums, props, LineUdpKeys, done, 3, "line.udp.msg.count", 10_000);
    var lineUdpReceiveBufferSize;
    lineUdpReceiveBufferSize, done :- GetIntSizeStep(nums, props, LineUdpKeys, done, 4, "line.udp.receive.buffer.size", 2048);
    assert done == [IntValue(lineUdpGroupIPv4Address), IntValue(lineUdpCommitRate), IntValue(lineUdpMsgBufferSize), IntValue(lineUdpMsgCount), IntValue(lineUdpReceiveBufferSize)];
    Finish(nums, props, LineUdpKeys, done);
    return Success(LineUdpSettings(lineUdpGroupIPv4Address, lineUdpCommitRate, lineUdpMsgBufferSize, lineUdpMsgCount, lineUdpReceiveBufferSize));
  }

  /** `parseBindTo` as a walk of the one-entry table it forms (lines 167-170, 219-222). */
  method LookupBindTo(nums: Numerics, props: Properties, key: string, defaultValue: string)
    returns (r: Result<BindAddress, ConfigError>)
    ensures r.Failure? ==> ResolveAll(nums, props, [BindKey(key, defaultValue)]) == Failure(r.error)
    ensures r.Success? ==> ResolveAll(nums, props, [BindKey(key, defaultValue)]) == Success([AddressValue(r.value)])
  {
    Start(nums, props, [BindKey(key, defaultValue)]);
    ghost var done;
    r, done := ParseBindToStep(nums, props, [BindKey(key, defaultValue)], [], 0, key, defaultValue);
    if r.Success? {
      assert done == [AddressValue(r.value)];
      Finish(nums, props, [BindKey(key, defaultValue)], done);
    }
  }

  /** The walk of `ServerKeys` is the walk of its five parts, one after the other. */
  lemma ServerKeysInOrder(nums: Numerics, props: Properties)
    ensures ResolveAll(nums, props, ServerKeys) ==
      Then(Then(Then(Then(ResolveAll(nums, props, HttpKeys), ResolveAll(nums, props, [HttpBindKey])),
        ResolveAll(nums, props, CairoKeys)), ResolveAll(nums, props, [LineUdpBindKey])),
        ResolveAll(nums, props, LineUdpKeys))
  {
    ResolveAllAppend(nums, props, HttpKeys, [HttpBindKey]);
    ResolveAllAppend(nums, props, HttpKeys + [HttpBindKey], CairoKeys);
    ResolveAllAppend(nums, props, HttpKeys + [HttpBindKey] + CairoKeys, [LineUdpBindKey]);
    ResolveAllAppend(nums, props, HttpKeys + [HttpBindKey] + CairoKeys + [LineUdpBindKey], LineUdpKeys);
  }

  class PropServerConfiguration {
    // the settings, final in Java (lines 50-124)
    const root: string
    // lines 133-165
    const connectionPoolInitialCapacity: Int32
    const connectionStringPoolCapacity: Int32
    const multipartHeaderBufferSize: Int32
    const multipartIdleSpinCount: Int64
    const recvBufferSize: Int32
    const requestHeaderBufferSize: Int32
    const responseHeaderBufferSize: Int32
    const workerCount: Int32
    const sendBufferSize: Int32
    const indexFileName: string
    const publicDirectory: string
    const abortBrokenUploads: bool
    const activeConnectionLimit: Int32
    const eventCapacity: Int32
    const ioQueueCapacity: Int32
    const idleConnectionTimeout: Int64
    const interestQueueCapacity: Int32
    const listenBacklog: Int32
    const sndBufSize: Int32
    const rcvBufSize: Int32
    const adapterSetConfigurationFileName: string
    const dateAdapterPoolCapacity: Int32
    const jsonCacheLimit: Int32
    const jsonCacheSize: Int32
    const maxRequiredDelimiterStdDev: real
    const metadataStringPoolCapacity: Int32
    const rollBufferLimit: Int32
    const rollBufferSize: Int32
    const textAnalysisMaxLines: Int32
    const textLexerStringPoolCapacity: Int32
    const timestampAdapterPoolCapacity: Int32
    const utf8SinkSize: Int32
    // lines 182-217
    const createAsSelectRetryCount: Int32
    const defaultMapType: string
    const defaultSymbolCacheFlag: bool
    const defaultSymbolCapacity: Int32
    const fileOperationRetryCount: Int32
    const idleCheckInterval: Int64
    const inactiveReaderTTL: Int64
    const inactiveWriterTTL: Int64
    const indexValueBlockSize: Int32
    const maxSwapFileCount: Int32
    const mkdirMode: Int32
    const parallelIndexThreshold: Int32
    const readerPoolMaxSegments: Int32
    const spinLockTimeoutUs: Int64
    const sqlCacheRows: Int32
    const sqlCacheBlocks: Int32
    const sqlCharacterStoreCapacity: Int32
    const sqlCharacterStoreSequencePoolCapacity: Int32
    const sqlColumnPoolCapacity: Int32
    const sqlCompactMapLoadFactor: real
    const sqlExpressionPoolCapacity: Int32
    const sqlFastMapLoadFactor: real
    const sqlJoinContextPoolCapacity: Int32
    const sqlLexerPoolCapacity: Int32
    const sqlMapKeyCapacity: Int32
    const sqlMapPageSize: Int32
    const sqlModelPoolCapacity: Int32
    const sqlSortKeyPageSize: Int32
    const sqlSortLightValuePageSize: Int32
    const sqlHashJoinValuePageSize: Int32
    const sqlTreePageSize: Int32
    const sqlHashJoinLightValuePageSize: Int32
    const sqlSortValuePageSize: Int32
    const workStealTimeoutNanos: Int64
    const parallelIndexingEnabled: bool
    const sqlJoinMetadataPageSize: Int32
    // lines 224-228
    const lineUdpGroupIPv4Address: Int32
    const lineUdpCommitRate: Int32
    const lineUdpMsgBufferSize: Int32
    const lineUdpMsgCount: Int32
    const lineUdpReceiveBufferSize: Int32

    // written only by the `onReady` callbacks of `parseBindTo`, which run
    // inside the constructor (lines 126-129)
    const bindIPv4Address: Int32
    const bindPort: Int32
    const lineUdpBindIPV4Address: Int32
    const lineUdpPort: Int32

    /** The fields set from `HttpKeys`. */
    function Http(): HttpSettings {
      HttpSettings(
        connectionPoolInitialCapacity, connectionStringPoolCapacity, multipartHeaderBufferSize,
        multipartIdleSpinCount, recvBufferSize, requestHeaderBufferSize, responseHeaderBufferSize,
        workerCount, sendBufferSize, indexFileName, publicDirectory, abortBrokenUploads,
        activeConnectionLimit, eventCapacity, ioQueueCapacity, idleConnectionTimeout,
        interestQueueCapacity, listenBacklog, sndBufSize, rcvBufSize,
        adapterSetConfigurationFileName, dateAdapterPoolCapacity, jsonCacheLimit, jsonCacheSize,
        maxRequiredDelimiterStdDev, metadataStringPoolCapacity, rollBufferLimit, rollBufferSize,
        textAnalysisMaxLines, textLexerStringPoolCapacity, timestampAdapterPoolCapacity,
        utf8SinkSize)
    }

    /** The fields set from `CairoKeys`. */
    function Cairo(): CairoSettings {
      CairoSettings(
        createAsSelectRetryCount, defaultMapType, defaultSymbolCacheFlag, defaultSymbolCapacity,
        fileOperationRetryCount, idleCheckInterval, inactiveReaderTTL, inactiveWriterTTL,
        indexValueBlockSize, maxSwapFileCount, mkdirMode, parallelIndexThreshold,
        readerPoolMaxSegments, spinLockTimeoutUs, sqlCacheRows, sqlCacheBlocks,
        sqlCharacterStoreCapacity, sqlCharacterStoreSequencePoolCapacity, sqlColumnPoolCapacity,
        sqlCompactMapLoadFactor, sqlExpressionPoolCapacity, sqlFastMapLoadFactor,
        sqlJoinContextPoolCapacity, sqlLexerPoolCapacity, sqlMapKeyCapacity, sqlMapPageSize,
        sqlModelPoolCapacity, sqlSortKeyPageSize, sqlSortLightValuePageSize,
        sqlHashJoinValuePageSize, sqlTreePageSize, sqlHashJoinLightValuePageSize,
        sqlSortValuePageSize, workStealTimeoutNanos, parallelIndexingEnabled,
        sqlJoinMetadataPageSize)
    }

    /** The fields set from `LineUdpKeys`. */
    function LineUdp(): LineUdpSettings {
      LineUdpSettings(
        lineUdpGroupIPv4Address, lineUdpCommitRate, lineUdpMsgBufferSize, lineUdpMsgCount,
        lineUdpReceiveBufferSize)
    }

    /** Every setting read from the properties, in the order of `ServerKeys`. */
    function Fields(): seq<Value> {
      HttpValues(Http()) + [AddressValue(BindAddress(bindIPv4Address, bindPort))] + CairoValues(Cairo())
      + [AddressValue(BindAddress(lineUdpBindIPV4Address, lineUdpPort))] + LineUdpValues(LineUdp())
    }

    /** The state after a successful constructor: the fields hold what `ServerKeys` resolves to. */
    ghost predicate ResolvedFrom(nums: Numerics, props: Properties) {
      ResolveAll(nums, props, ServerKeys) == Success(Fields())
    }

    /**
     * `new PropServerConfiguration(root, properties)` (lines 131-229): the
     * lookups in source order; the first failure ends the construction and no
     * object is made; otherwise the object holds the root verbatim and every
     * value read, the bind pairs included.
     */
    static method New(root: string, props: Properties, nums: Numerics) returns (r: Result<PropServerConfiguration, ConfigError>)
      ensures r.Failure? <==> ResolveAll(nums, props, ServerKeys).Failure?
      ensures r.Failure? ==> r.error == ResolveAll(nums, props, ServerKeys).error
      ensures r.Success? ==> fresh(r.value) && r.value.ResolvedFrom(nums, props)
      ensures r.Success? ==> r.value.root == root && r.value.GetCairoConfiguration().GetRoot() == root
    {
      ServerKeysInOrder(nums, props);
      var http :- LookupHttp(nums, props);
      // the text "0.0.0.0:9000", spelled in three pieces as in `HttpBindKey`
      var bindTo :- LookupBindTo(nums, props, "http.bind.to", "0.0.0.0" + ":" + "9000");
      var cairo :- LookupCairo(nums, props);
      var lineUdpBindTo :- LookupBindTo(nums, props, "line.udp.bind.to", "0.0.0.0" + ":" + "9009");
      var lineUdp :- LookupLineUdp(nums, props);
      var c := new PropServerConfiguration(root, http, bindTo, cairo, lineUdpBindTo, lineUdp);
      return Success(c);
    }

    /**
     * The assignments of the constructor: each setting is stored as read, and
     * each bind pair is what its `onReady` lambda writes (lines 167-170 and
     * 219-222), the only place the bind fields are ever set.
     */
    constructor (root: string, http: HttpSettings, httpBind: BindAddress, cairo: CairoSettings,
                 lineUdpBind: BindAddress, lineUdp: LineUdpSettings)
      ensures this.root == root && Http() == http && Cairo() == cairo && LineUdp() == lineUdp
      ensures bindIPv4Address == httpBind.ipv4 && bindPort == httpBind.port
      ensures lineUdpBindIPV4Address == lineUdpBind.ipv4 && lineUdpPort == lineUdpBind.port
    {
      this.root := root;
      this.connectionPoolInitialCapacity := http.connectionPoolInitialCapacity;
      this.connectionStringPoolCapacity := http.connectionStringPoolCapacity;
      this.multipartHeaderBufferSize := http.multipartHeaderBufferSize;
      this.multipartIdleSpinCount := http.multipartIdleSpinCount;
      this.recvBufferSize := http.recvBufferSize;
      this.requestHeaderBufferSize := http.requestHeaderBufferSize;
      this.responseHeaderBufferSize := http.responseHeaderBufferSize;
      this.workerCount := http.workerCount;
      this.sendBufferSize := http.sendBufferSize;
      this.indexFileName := http.indexFileName;
      this.publicDirectory := http.publicDirectory;
      this.abortBrokenUploads := http.abortBrokenUploads;
      this.activeConnectionLimit := http.activeConnectionLimit;
      this.eventCapacity := http.eventCapacity;
      this.ioQueueCapacity := http.ioQueueCapacity;
      this.idleConnectionTimeout := http.idleConnectionTimeout;
      this.interestQueueCapacity := http.interestQueueCapacity;
      this.listenBacklog := http.listenBacklog;
      this.sndBufSize := http.sndBufSize;
      this.rcvBufSize := http.rcvBufSize;
      this.adapterSetConfigurationFileName := http.adapterSetConfigurationFileName;
      this.dateAdapterPoolCapacity := http.dateAdapterPoolCapacity;
      this.jsonCacheLimit := http.jsonCacheLimit;
      this.jsonCacheSize := http.jsonCacheSize;
      this.maxRequiredDelimiterStdDev := http.maxRequiredDelimiterStdDev;
      this.metadataStringPoolCapacity := http.metadataStringPoolCapacity;
      this.rollBufferLimit := http.rollBufferLimit;
      this.rollBufferSize := http.rollBufferSize;
      this.textAnalysisMaxLines := http.textAnalysisMaxLines;
      this.textLexerStringPoolCapacity := http.textLexerStringPoolCapacity;
      this.timestampAdapterPoolCapacity := http.timestampAdapterPoolCapacity;
      this.utf8SinkSize := http.utf8SinkSize;
      this.createAsSelectRetryCount := cairo.createAsSelectRetryCount;
      this.defaultMapType := cairo.defaultMapType;
      this.defaultSymbolCacheFlag := cairo.defaultSymbolCacheFlag;
      this.defaultSymbolCapacity := cairo.defaultSymbolCapacity;
      this.fileOperationRetryCount := cairo.fileOperationRetryCount;
      this.idleCheckInterval := cairo.idleCheckInterval;
      this.inactiveReaderTTL := cairo.inactiveReaderTTL;
      this.inactiveWriterTTL := cairo.inactiveWriterTTL;
      this.indexValueBlockSize := cairo.indexValueBlockSize;
      this.maxSwapFileCount := cairo.maxSwapFileCount;
      this.mkdirMode := cairo.mkdirMode;
      this.parallelIndexThreshold := cairo.parallelIndexThreshold;
      this.readerPoolMaxSegments := cairo.readerPoolMaxSegments;
      this.spinLockTimeoutUs := cairo.spinLockTimeoutUs;
      this.sqlCacheRows := cairo.sqlCacheRows;
      this.sqlCacheBlocks := cairo.sqlCacheBlocks;
      this.sqlCharacterStoreCapacity := cairo.sqlCharacterStoreCapacity;
      this.sqlCharacterStoreSequencePoolCapacity := cairo.sqlCharacterStoreSequencePoolCapacity;
      this.sqlColumnPoolCapacity := cairo.sqlColumnPoolCapacity;
      this.sqlCompactMapLoadFactor := cairo.sqlCompactMapLoadFactor;
      this.sqlExpressionPoolCapacity := cairo.sqlExpressionPoolCapacity;
      this.sqlFastMapLoadFactor := cairo.sqlFastMapLoadFactor;
      this.sqlJoinContextPoolCapacity := cairo.sqlJoinContextPoolCapacity;
      this.sqlLexerPoolCapacity := cairo.sqlLexerPoolCapacity;
      this.sqlMapKeyCapacity := cairo.sqlMapKeyCapacity;
      this.sqlMapPageSize := cairo.sqlMapPageSize;
      this.sqlModelPoolCapacity := cairo.sqlModelPoolCapacity;
      this.sqlSortKeyPageSize := cairo.sqlSortKeyPageSize;
      this.sqlSortLightValuePageSize := cairo.sqlSortLightValuePageSize;
      this.sqlHashJoinValuePageSize := cairo.sqlHashJoinValuePageSize;
      this.sqlTreePageSize := cairo.sqlTreePageSize;
      this.sqlHashJoinLightValuePageSize := cairo.sqlHashJoinLightValuePageSize;
      this.sqlSortValuePageSize := cairo.sqlSortValuePageSize;
      this.workStealTimeoutNanos := cairo.workStealTimeoutNanos;
      this.parallelIndexingEnabled := cairo.parallelIndexingEnabled;
      this.sqlJoinMetadataPageSize := cairo.sqlJoinMetadataPageSize;
      this.lineUdpGroupIPv4Address := lineUdp.lineUdpGroupIPv4Address;
      this.lineUdpCommitRate := lineUdp.lineUdpCommitRate;
      this.lineUdpMsgBufferSize := lineUdp.lineUdpMsgBufferSize;
      this.lineUdpMsgCount := lineUdp.lineUdpMsgCount;
      this.lineUdpReceiveBufferSize := lineUdp.lineUdpReceiveBufferSize;
      // the HTTP server's `onReady`
      bindIPv4Address := httpBind.ipv4;
      bindPort := httpBind.port;
      // the UDP line receiver's `onReady`
      lineUdpBindIPV4Address := lineUdpBind.ipv4;
      lineUdpPort := lineUdpBind.port;
    }

    function GetCairoConfiguration(): PropCairoConfiguration {
      PropCairoConfiguration(this)
    }

    function GetHttpServerConfiguration(): PropHttpServerConfiguration {
      PropHttpServerConfiguration(this)
    }

    function GetLineUdpReceiverConfiguration(): PropLineUdpReceiverConfiguration {
      PropLineUdpReceiverConfiguration(this)
    }
  }

  /** The static content processor's view: index file name and public directory (lines 343-363). */
  datatype PropStaticContentProcessorConfiguration = PropStaticContentProcessorConfiguration(outer: PropServerConfiguration)
  {
    function GetIndexFileName(): string
    {
      outer.indexFileName
    }

    function GetPublicDirectory(): string
    {
      outer.publicDirectory
    }
  }

  /** The text import processor's view (lines 365-375). */
  datatype PropTextImportProcessorConfiguration = PropTextImportProcessorConfiguration(outer: PropServerConfiguration)
  {
    function AbortBrokenUploads(): bool
    {
      outer.abortBrokenUploads
    }

    function GetTextConfiguration(): PropTextConfiguration
    {
      PropTextConfiguration(outer)
    }
  }

  /** The IO dispatcher's view: connection limits, queue capacities, socket buffers and the HTTP bind address (lines 377-452). */
  datatype PropIODispatcherConfiguration = PropIODispatcherConfiguration(outer: PropServerConfiguration)
  {
    function GetActiveConnectionLimit(): Int32
    {
      outer.activeConnectionLimit
    }

    function GetBindIPv4Address(): Int32
    {
      outer.bindIPv4Address
    }

    function GetBindPort(): Int32
    {
      outer.bindPort
    }

    function GetEventCapacity(): Int32
    {
      outer.eventCapacity
    }

    function GetIOQueueCapacity(): Int32
    {
      outer.ioQueueCapacity
    }

    function GetIdleConnectionTimeout(): Int64
    {
      outer.idleConnectionTimeout
    }

    function GetInterestQueueCapacity(): Int32
    {
      outer.interestQueueCapacity
    }

    function GetListenBacklog(): Int32
    {
      outer.listenBacklog
    }

    function GetSndBufSize(): Int32
    {
      outer.sndBufSize
    }

    function GetRcvBufSize(): Int32
    {
      outer.rcvBufSize
    }
  }

  /** The text loader's view: pool capacities, caches and roll buffers (lines 454-514). */
  datatype PropTextConfiguration = PropTextConfiguration(outer: PropServerConfiguration)
  {
    function GetAdapterSetConfigurationFileName(): string
    {
      outer.adapterSetConfigurationFileName
    }

    function GetDateAdapterPoolCapacity(): Int32
    {
      outer.dateAdapterPoolCapacity
    }

    function GetJsonCacheLimit(): Int32
    {
      outer.jsonCacheLimit
    }

    function GetJsonCacheSize(): Int32
    {
      outer.jsonCacheSize
    }

    function GetMaxRequiredDelimiterStdDev(): real
    {
      outer.maxRequiredDelimiterStdDev
    }

    function GetMetadataStringPoolCapacity(): Int32
    {
      outer.metadataStringPoolCapacity
    }

    function GetRollBufferLimit(): Int32
    {
      outer.rollBufferLimit
    }

    function GetRollBufferSize(): Int32
    {
      outer.rollBufferSize
    }

    function GetTextAnalysisMaxLines(): Int32
    {
      outer.textAnalysisMaxLines
    }

    function GetTextLexerStringPoolCapacity(): Int32
    {
      outer.textLexerStringPoolCapacity
    }

    function GetTimestampAdapterPoolCapacity(): Int32
    {
      outer.timestampAdapterPoolCapacity
    }

    function GetUtf8SinkSize(): Int32
    {
      outer.utf8SinkSize
    }
  }

  /** The HTTP server's view: buffers, worker count and the views of its processors (lines 516-581). */
  datatype PropHttpServerConfiguration = PropHttpServerConfiguration(outer: PropServerConfiguration)
  {
    function GetConnectionPoolInitialCapacity(): Int32
    {
      outer.connectionPoolInitialCapacity
    }

    function GetConnectionStringPoolCapacity(): Int32
    {
      outer.connectionStringPoolCapacity
    }

    function GetMultipartHeaderBufferSize(): Int32
    {
      outer.multipartHeaderBufferSize
    }

    function GetMultipartIdleSpinCount(): Int64
    {
      outer.multipartIdleSpinCount
    }

    function GetRecvBufferSize(): Int32
    {
      outer.recvBufferSize
    }

    function GetRequestHeaderBufferSize(): Int32
    {
      outer.requestHeaderBufferSize
    }

    function GetResponseHeaderBufferSize(): Int32
    {
      outer.responseHeaderBufferSize
    }

    function GetDispatcherConfiguration(): PropIODispatcherConfiguration
    {
      PropIODispatcherConfiguration(outer)
    }

    function GetStaticContentProcessorConfiguration(): PropStaticContentProcessorConfiguration
    {
      PropStaticContentProcessorConfiguration(outer)
    }

    function GetTextImportProcessorConfiguration(): PropTextImportProcessorConfiguration
    {
      PropTextImportProcessorConfiguration(outer)
    }

    function GetWorkerCount(): Int32
    {
      outer.workerCount
    }

    function GetSendBufferSize(): Int32
    {
      outer.sendBufferSize
    }
  }

  /** The storage engine's view: retry counts, pool capacities, page sizes, TTLs and the root directory (lines 583-783). */
  datatype PropCairoConfiguration = PropCairoConfiguration(outer: PropServerConfiguration)
  {
    function GetCreateAsSelectRetryCount(): Int32
    {
      outer.createAsSelectRetryCount
    }

    function GetDefaultMapType(): string
    {
      outer.defaultMapType
    }

    function GetDefaultSymbolCacheFlag(): bool
    {
      outer.defaultSymbolCacheFlag
    }

    function GetDefaultSymbolCapacity(): Int32
    {
      outer.defaultSymbolCapacity
    }

    function GetFileOperationRetryCount(): Int32
    {
      outer.fileOperationRetryCount
    }

    function GetIdleCheckInterval(): Int64
    {
      outer.idleCheckInterval
    }

    function GetInactiveReaderTTL(): Int64
    {
      outer.inactiveReaderTTL
    }

    function GetInactiveWriterTTL(): Int64
    {
      outer.inactiveWriterTTL
    }

    function GetIndexValueBlockSize(): Int32
    {
      outer.indexValueBlockSize
    }

    function GetMaxSwapFileCount(): Int32
    {
      outer.maxSwapFileCount
    }

    function GetMkDirMode(): Int32
    {
      outer.mkdirMode
    }

    function GetParallelIndexThreshold(): Int32
    {
      outer.parallelIndexThreshold
    }

    function GetReaderPoolMaxSegments(): Int32
    {
      outer.readerPoolMaxSegments
    }

    function GetRoot(): string
    {
      outer.root
    }

    function GetSpinLockTimeoutUs(): Int64
    {
      outer.spinLockTimeoutUs
    }

    function GetSqlCacheBlocks(): Int32
    {
      outer.sqlCacheBlocks
    }

    function GetSqlCacheRows(): Int32
    {
      outer.sqlCacheRows
    }

    function GetSqlCharacterStoreCapacity(): Int32
    {
      outer.sqlCharacterStoreCapacity
    }

    function GetSqlCharacterStoreSequencePoolCapacity(): Int32
    {
      outer.sqlCharacterStoreSequencePoolCapacity
    }

    function GetSqlColumnPoolCapacity(): Int32
    {
      outer.sqlColumnPoolCapacity
    }

    function GetSqlCompactMapLoadFactor(): real
    {
      outer.sqlCompactMapLoadFactor
    }

    function GetSqlExpressionPoolCapacity(): Int32
    {
      outer.sqlExpressionPoolCapacity
    }

    function GetSqlFastMapLoadFactor(): real
    {
      outer.sqlFastMapLoadFactor
    }

    function GetSqlJoinContextPoolCapacity(): Int32
    {
      outer.sqlJoinContextPoolCapacity
    }

    function GetSqlLexerPoolCapacity(): Int32
    {
      outer.sqlLexerPoolCapacity
    }

    function GetSqlMapKeyCapacity(): Int32
    {
      outer.sqlMapKeyCapacity
    }

    function GetSqlMapPageSize(): Int32
    {
      outer.sqlMapPageSize
    }

    function GetSqlModelPoolCapacity(): Int32
    {
      outer.sqlModelPoolCapacity
    }

    function GetSqlSortKeyPageSize(): Int32
    {
      outer.sqlSortKeyPageSize
    }

    function GetSqlSortLightValuePageSize(): Int32
    {
      outer.sqlSortLightValuePageSize
    }

    function GetSqlHashJoinValuePageSize(): Int32
    {
      outer.sqlHashJoinValuePageSize
    }

    function GetSqlTreePageSize(): Int32
    {
      outer.sqlTreePageSize
    }

    function GetSqlHashJoinLightValuePageSize(): Int32
    {
      outer.sqlHashJoinLightValuePageSize
    }

    function GetSqlSortValuePageSize(): Int32
    {
      outer.sqlSortValuePageSize
    }

    function GetWorkStealTimeoutNanos(): Int64
    {
      outer.workStealTimeoutNanos
    }

    function IsParallelIndexingEnabled(): bool
    {
      outer.parallelIndexingEnabled
    }

    function GetSqlJoinMetadataPageSize(): Int32
    {
      outer.sqlJoinMetadataPageSize
    }
  }

  /** The UDP line receiver's view: bind address, multicast group and buffer sizes (lines 785-825). */
  datatype PropLineUdpReceiverConfiguration = PropLineUdpReceiverConfiguration(outer: PropServerConfiguration)
  {
    function GetBindIPv4Address(): Int32
    {
      outer.lineUdpBindIPV4Address
    }

    function GetCommitRate(): Int32
    {
      outer.lineUdpCommitRate
    }

    function GetGroupIPv4Address(): Int32
    {
      outer.lineUdpGroupIPv4Address
    }

    function GetMsgBufferSize(): Int32
    {
      outer.lineUdpMsgBufferSize
    }

    function GetMsgCount(): Int32
    {
      outer.lineUdpMsgCount
    }

    function GetPort(): Int32
    {
      outer.lineUdpPort
    }

    function GetReceiveBufferSize(): Int32
    {
      outer.lineUdpReceiveBufferSize
    }
  }

  /** A resolved configuration holds, part by part, what each run of lookups resolves to. */
  lemma ResolvedParts(c: PropServerConfiguration, nums: Numerics, props: Properties)
    requires c.ResolvedFrom(nums, props)
    ensures ResolveAll(nums, props, HttpKeys) == Success(HttpValues(c.Http()))
    ensures ResolveAll(nums, props, [HttpBindKey]) == Success([AddressValue(BindAddress(c.bindIPv4Address, c.bindPort))])
    ensures ResolveAll(nums, props, CairoKeys) == Success(CairoValues(c.Cairo()))
    ensures ResolveAll(nums, props, [LineUdpBindKey]) == Success([AddressValue(BindAddress(c.lineUdpBindIPV4Address, c.lineUdpPort))])
    ensures ResolveAll(nums, props, LineUdpKeys) == Success(LineUdpValues(c.LineUdp()))
  {
    var http, httpBind := HttpValues(c.Http()), [AddressValue(BindAddress(c.bindIPv4Address, c.bindPort))];
    var cairo, lineUdpBind := CairoValues(c.Cairo()), [AddressValue(BindAddress(c.lineUdpBindIPV4Address, c.lineUdpPort))];
    var lineUdp := LineUdpValues(c.LineUdp());
    ResolveAllSplit(nums, props, HttpKeys + [HttpBindKey] + CairoKeys + [LineUdpBindKey], LineUdpKeys,
      http + httpBind + cairo + lineUdpBind, lineUdp);
    ResolveAllSplit(nums, props, HttpKeys + [HttpBindKey] + CairoKeys, [LineUdpBindKey], http + httpBind + cairo, lineUdpBind);
    ResolveAllSplit(nums, props, HttpKeys + [HttpBindKey], CairoKeys, http + httpBind, cairo);
    ResolveAllSplit(nums, props, HttpKeys, [HttpBindKey], http, httpBind);
  }

  /**
   * With no `http.bind.to` property the default `0.0.0.0:9000` is parsed:
   * the HTTP server binds to what `0.0.0.0` parses to, on port 9000.
   */
  lemma DefaultHttpBind(c: PropServerConfiguration, nums: Numerics, props: Properties)
    requires c.ResolvedFrom(nums, props) && "http.bind.to" !in props
    ensures nums.parseIPv4("0.0.0.0") == Some(c.GetHttpServerConfiguration().GetDispatcherConfiguration().GetBindIPv4Address())
    ensures nums.parseInt("9000") == Some(c.GetHttpServerConfiguration().GetDispatcherConfiguration().GetBindPort())
  {
    ResolvedParts(c, nums, props);
    ResolvedAt(nums, props, [HttpBindKey], [AddressValue(BindAddress(c.bindIPv4Address, c.bindPort))]);
    ParseBindSpecOfHostPort(nums, "http.bind.to", "0.0.0.0", "9000");
  }

  /**
   * With no `line.udp.bind.to` property the default `0.0.0.0:9009` is parsed:
   * the UDP line receiver binds to what `0.0.0.0` parses to, on port 9009.
   */
  lemma DefaultLineUdpBind(c: PropServerConfiguration, nums: Numerics, props: Properties)
    requires c.ResolvedFrom(nums, props) && "line.udp.bind.to" !in props
    ensures nums.parseIPv4("0.0.0.0") == Some(c.GetLineUdpReceiverConfiguration().GetBindIPv4Address())
    ensures nums.parseInt("9009") == Some(c.GetLineUdpReceiverConfiguration().GetPort())
  {
    ResolvedParts(c, nums, props);
    ResolvedAt(nums, props, [LineUdpBindKey], [AddressValue(BindAddress(c.lineUdpBindIPV4Address, c.lineUdpPort))]);
    ParseBindSpecOfHostPort(nums, "line.udp.bind.to", "0.0.0.0", "9009");
  }

  /**
   * The storage engine sees the index value block size rounded up to a power
   * of two (line 190): the size read for `cairo.index.value.block.size`, 256 by
   * default, passed through `ceilPow2`.
   */
  lemma IndexValueBlockSizeRounded(c: PropServerConfiguration, nums: Numerics, props: Properties)
    requires c.ResolvedFrom(nums, props)
    ensures GetIntSize(nums, props, "cairo.index.value.block.size", 256).Success?
    ensures c.GetCairoConfiguration().GetIndexValueBlockSize() ==
      nums.ceilPow2(GetIntSize(nums, props, "cairo.index.value.block.size", 256).value)
  {
    ResolvedParts(c, nums, props);
    CairoKeysGroups(nums, props, c.Cairo());
    ResolvedCairoIndexing(nums, props, c.Cairo());
  }

  /** A resolved `HttpKeys` is resolved group by group. */
  lemma HttpKeysGroups(nums: Numerics, props: Properties, s: HttpSettings)
    requires ResolveAll(nums, props, HttpKeys) == Success(HttpValues(s))
    ensures ResolveAll(nums, props, HttpConnectionPoolsKeys) == Success(HttpConnectionPoolsValues(s))
    ensures ResolveAll(nums, props, HttpBuffersKeys) == Success(HttpBuffersValues(s))
    ensures ResolveAll(nums, props, StaticContentKeys) == Success(StaticContentValues(s))
    ensures ResolveAll(nums, props, HttpNetLimitsKeys) == Success(HttpNetLimitsValues(s))
    ensures ResolveAll(nums, props, HttpNetBuffersKeys) == Success(HttpNetBuffersValues(s))
    ensures ResolveAll(nums, props, TextCachesKeys) == Success(TextCachesValues(s))
    ensures ResolveAll(nums, props, TextRollBuffersKeys) == Success(TextRollBuffersValues(s))
    ensures ResolveAll(nums, props, TextPoolsKeys) == Success(TextPoolsValues(s))
  {
    ResolveAllSplit(nums, props, HttpConnectionPoolsKeys + HttpBuffersKeys + StaticContentKeys + HttpNetLimitsKeys + HttpNetBuffersKeys + TextCachesKeys + TextRollBuffersKeys, TextPoolsKeys,
      HttpConnectionPoolsValues(s) + HttpBuffersValues(s) + StaticContentValues(s) + HttpNetLimitsValues(s) + HttpNetBuffersValues(s) + TextCachesValues(s) + TextRollBuffersValues(s), TextPoolsValues(s));
    ResolveAllSplit(nums, props, HttpConnectionPoolsKeys + HttpBuffersKeys + StaticContentKeys + HttpNetLimitsKeys + HttpNetBuffersKeys + TextCachesKeys, TextRollBuffersKeys,
      HttpConnectionPoolsValues(s) + HttpBuffersValues(s) + StaticContentValues(s) + HttpNetLimitsValues(s) + HttpNetBuffersValues(s) + TextCachesValues(s), TextRollBuffersValues(s));
    ResolveAllSplit(nums, props, HttpConnectionPoolsKeys + HttpBuffersKeys + StaticContentKeys + HttpNetLimitsKeys + HttpNetBuffersKeys, TextCachesKeys,
      HttpConnectionPoolsValues(s) + HttpBuffersValues(s) + StaticContentValues(s) + HttpNetLimitsValues(s) + HttpNetBuffersValues(s), TextCachesValues(s));
    ResolveAllSplit(nums, props, HttpConnectionPoolsKeys + HttpBuffersKeys + StaticContentKeys + HttpNetLimitsKeys, HttpNetBuffersKeys,
      HttpConnectionPoolsValues(s) + HttpBuffersValues(s) + StaticContentValues(s) + HttpNetLimitsValues(s), HttpNetBuffersValues(s));
    ResolveAllSplit(nums, props, HttpConnectionPoolsKeys + HttpBuffersKeys + StaticContentKeys, HttpNetLimitsKeys,
      HttpConnectionPoolsValues(s) + HttpBuffersValues(s) + StaticContentValues(s), HttpNetLimitsValues(s));
    ResolveAllSplit(nums, props, HttpConnectionPoolsKeys + HttpBuffersKeys, StaticContentKeys,
      HttpConnectionPoolsValues(s) + HttpBuffersValues(s), StaticContentValues(s));
    ResolveAllSplit(nums, props, HttpConnectionPoolsKeys, HttpBuffersKeys,
      HttpConnectionPoolsValues(s), HttpBuffersValues(s));
  }

  /** A resolved `CairoKeys` is resolved group by group. */
  lemma CairoKeysGroups(nums: Numerics, props: Properties, s: CairoSettings)
    requires ResolveAll(nums, props, CairoKeys) == Success(CairoValues(s))
    ensures ResolveAll(nums, props, CairoDefaultsKeys) == Success(CairoDefaultsValues(s))
    ensures ResolveAll(nums, props, CairoTimingsKeys) == Success(CairoTimingsValues(s))
    ensures ResolveAll(nums, props, CairoIndexingKeys) == Success(CairoIndexingValues(s))
    ensures ResolveAll(nums, props, CairoCacheKeys) == Success(CairoCacheValues(s))
    ensures ResolveAll(nums, props, SqlStoresKeys) == Success(SqlStoresValues(s))
    ensures ResolveAll(nums, props, SqlPoolsKeys) == Success(SqlPoolsValues(s))
    ensures ResolveAll(nums, props, SqlPagesKeys) == Success(SqlPagesValues(s))
    ensures ResolveAll(nums, props, SqlJoinPagesKeys) == Success(SqlJoinPagesValues(s))
    ensures ResolveAll(nums, props, CairoWorkersKeys) == Success(CairoWorkersValues(s))
  {
    ResolveAllSplit(nums, props, CairoDefaultsKeys + CairoTimingsKeys + CairoIndexingKeys + CairoCacheKeys + SqlStoresKeys + SqlPoolsKeys + SqlPagesKeys + SqlJoinPagesKeys, CairoWorkersKeys,
      CairoDefaultsValues(s) + CairoTimingsValues(s) + CairoIndexingValues(s) + CairoCacheValues(s) + SqlStoresValues(s) + SqlPoolsValues(s) + SqlPagesValues(s) + SqlJoinPagesValues(s), CairoWorkersValues(s));
    ResolveAllSplit(nums, props, CairoDefaultsKeys + CairoTimingsKeys + CairoIndexingKeys + CairoCacheKeys + SqlStoresKeys + SqlPoolsKeys + SqlPagesKeys, SqlJoinPagesKeys,
      CairoDefaultsValues(s) + CairoTimingsValues(s) + CairoIndexingValues(s) + CairoCacheValues(s) + SqlStoresValues(s) + SqlPoolsValues(s) + SqlPagesValues(s), SqlJoinPagesValues(s));
    ResolveAllSplit(nums, props, CairoDefaultsKeys + CairoTimingsKeys + CairoIndexingKeys + CairoCacheKeys + SqlStoresKeys + SqlPoolsKeys, SqlPagesKeys,
      CairoDefaultsValues(s) + CairoTimingsValues(s) + CairoIndexingValues(s) + CairoCacheValues(s) + SqlStoresValues(s) + SqlPoolsValues(s), SqlPagesValues(s));
    ResolveAllSplit(nums, props, CairoDefaultsKeys + CairoTimingsKeys + CairoIndexingKeys + CairoCacheKeys + SqlStoresKeys, SqlPoolsKeys,
      CairoDefaultsValues(s) + CairoTimingsValues(s) + CairoIndexingValues(s) + CairoCacheValues(s) + SqlStoresValues(s), SqlPoolsValues(s));
    ResolveAllSplit(nums, props, CairoDefaultsKeys + CairoTimingsKeys + CairoIndexingKeys + CairoCacheKeys, SqlStoresKeys,
      CairoDefaultsValues(s) + CairoTimingsValues(s) + CairoIndexingValues(s) + CairoCacheValues(s), SqlStoresValues(s));
    ResolveAllSplit(nums, props, CairoDefaultsKeys + CairoTimingsKeys + CairoIndexingKeys, CairoCacheKeys,
      CairoDefaultsValues(s) + CairoTimingsValues(s) + CairoIndexingValues(s), CairoCacheValues(s));
    ResolveAllSplit(nums, props, CairoDefaultsKeys + CairoTimingsKeys, CairoIndexingKeys,
      CairoDefaultsValues(s) + CairoTimingsValues(s), CairoIndexingValues(s));
    ResolveAllSplit(nums, props, CairoDefaultsKeys, CairoTimingsKeys,
      CairoDefaultsValues(s), CairoTimingsValues(s));
  }

  /** What `HttpConnectionPoolsKeys` resolving means for each setting it reads (lines 133-136). */
  lemma ResolvedHttpConnectionPools(nums: Numerics, props: Properties, s: HttpSettings)
    requires ResolveAll(nums, props, HttpConnectionPoolsKeys) == Success(HttpConnectionPoolsValues(s))
    ensures GetInt(nums, props, "http.connection.pool.initial.capacity", 16) == Success(s.connectionPoolInitialCapacity)
    ensures GetInt(nums, props, "http.connection.string.pool.capacity", 128) == Success(s.connectionStringPoolCapacity)
    ensures GetIntSize(nums, props, "http.multipart.header.buffer.size", 512) == Success(s.multipartHeaderBufferSize)
    ensures GetLong(nums, props, "http.multipart.idle.spin.count", 10_000) == Success(s.multipartIdleSpinCount)
  {
    ResolvedAt(nums, props, HttpConnectionPoolsKeys, HttpConnectionPoolsValues(s));
  }

  /** What `HttpBuffersKeys` resolving means for each setting it reads (lines 137-141). */
  lemma ResolvedHttpBuffers(nums: Numerics, props: Properties, s: HttpSettings)
    requires ResolveAll(nums, props, HttpBuffersKeys) == Success(HttpBuffersValues(s))
    ensures GetIntSize(nums, props, "http.receive.buffer.size", 1024 * 1024) == Success(s.recvBufferSize)
    ensures GetIntSize(nums, props, "http.request.header.buffer.size", 1024) == Success(s.requestHeaderBufferSize)
    ensures GetIntSize(nums, props, "http.response.header.buffer.size", 1024 * 1024) == Success(s.responseHeaderBufferSize)
    ensures GetInt(nums, props, "http.worker.count", 2) == Success(s.workerCount)
    ensures GetIntSize(nums, props, "http.send.buffer.size", 2 * 1024 * 1024) == Success(s.sendBufferSize)
  {
    ResolvedAt(nums, props, HttpBuffersKeys, HttpBuffersValues(s));
  }

  /** What `StaticContentKeys` resolving means for each setting it reads (lines 142-144). */
  lemma ResolvedStaticContent(nums: Numerics, props: Properties, s: HttpSettings)
    requires ResolveAll(nums, props, StaticContentKeys) == Success(StaticContentValues(s))
    ensures s.indexFileName == GetString(props, "http.static.index.file.name", "index.html")
    ensures s.publicDirectory == GetString(props, "http.static.pubic.directory", "public")
    ensures s.abortBrokenUploads == GetBoolean(props, "http.text.abort.broken.uploads", true)
  {
    ResolvedAt(nums, props, StaticContentKeys, StaticContentValues(s));
  }

  /** What `HttpNetLimitsKeys` resolving means for each setting it reads (lines 145-148). */
  lemma ResolvedHttpNetLimits(nums: Numerics, props: Properties, s: HttpSettings)
    requires ResolveAll(nums, props, HttpNetLimitsKeys) == Success(HttpNetLimitsValues(s))
    ensures GetInt(nums, props, "http.net.active.connection.limit", 256) == Success(s.activeConnectionLimit)
    ensures GetInt(nums, props, "http.net.event.capacity", 1024) == Success(s.eventCapacity)
    ensures GetInt(nums, props, "http.net.io.queue.capacity", 1024) == Success(s.ioQueueCapacity)
    ensures GetLong(nums, props, "http.net.idle.connection.timeout", 5 * 60 * 1000) == Success(s.idleConnectionTimeout)
  {
    ResolvedAt(nums, props, HttpNetLimitsKeys, HttpNetLimitsValues(s));
  }

  /** What `HttpNetBuffersKeys` resolving means for each setting it reads (lines 149-152). */
  lemma ResolvedHttpNetBuffers(nums: Numerics, props: Properties, s: HttpSettings)
    requires ResolveAll(nums, props, HttpNetBuffersKeys) == Success(HttpNetBuffersValues(s))
    ensures GetInt(nums, props, "http.net.interest.queue.capacity", 1024) == Success(s.interestQueueCapacity)
    ensures GetInt(nums, props, "http.net.listen.backlog", 256) == Success(s.listenBacklog)
    ensures GetIntSize(nums, props, "http.net.snd.buf.size", 2 * 1024 * 1024) == Success(s.sndBufSize)
    ensures GetIntSize(nums, props, "http.net.rcv.buf.size", 2 * 1024 * 1024) == Success(s.rcvBufSize)
  {
    ResolvedAt(nums, props, HttpNetBuffersKeys, HttpNetBuffersValues(s));
  }

  /** What `TextCachesKeys` resolving means for each setting it reads (lines 153-156). */
  lemma ResolvedTextCaches(nums: Numerics, props: Properties, s: HttpSettings)
    requires ResolveAll(nums, props, TextCachesKeys) == Success(TextCachesValues(s))
    ensures s.adapterSetConfigurationFileName == GetString(props, "http.text.adapter.set.config", "/text_loader.json")
    ensures GetInt(nums, props, "http.text.date.adapter.pool.capacity", 16) == Success(s.dateAdapterPoolCapacity)
    ensures GetIntSize(nums, props, "http.text.json.cache.limit", 16384) == Success(s.jsonCacheLimit)
    ensures GetIntSize(nums, props, "http.text.json.cache.size", 8192) == Success(s.jsonCacheSize)
  {
    ResolvedAt(nums, props, TextCachesKeys, TextCachesValues(s));
  }

  /** What `TextRollBuffersKeys` resolving means for each setting it reads (lines 157-161). */
  lemma ResolvedTextRollBuffers(nums: Numerics, props: Properties, s: HttpSettings)
    requires ResolveAll(nums, props, TextRollBuffersKeys) == Success(TextRollBuffersValues(s))
    ensures GetDouble(nums, props, "http.text.max.required.delimiter.stddev", 0.1222) == Success(s.maxRequiredDelimiterStdDev)
    ensures GetInt(nums, props, "http.text.metadata.string.pool.capacity", 128) == Success(s.metadataStringPoolCapacity)
    ensures GetIntSize(nums, props, "http.text.roll.buffer.limit", 4096) == Success(s.rollBufferLimit)
    ensures GetIntSize(nums, props, "http.text.roll.buffer.size", 1024) == Success(s.rollBufferSize)
  {
    ResolvedAt(nums, props, TextRollBuffersKeys, TextRollBuffersValues(s));
  }

  /** What `TextPoolsKeys` resolving means for each setting it reads (lines 162-165). */
  lemma ResolvedTextPools(nums: Numerics, props: Properties, s: HttpSettings)
    requires ResolveAll(nums, props, TextPoolsKeys) == Success(TextPoolsValues(s))
    ensures GetInt(nums, props, "http.text.analysis.max.lines", 1000) == Success(s.textAnalysisMaxLines)
    ensures GetInt(nums, props, "http.text.lexer.string.pool.capacity", 64) == Success(s.textLexerStringPoolCapacity)
    ensures GetInt(nums, props, "http.text.timestamp.adapter.pool.capacity", 64) == Success(s.timestampAdapterPoolCapacity)
    ensures GetIntSize(nums, props, "http.text.utf8.sink.size", 4096) == Success(s.utf8SinkSize)
  {
    ResolvedAt(nums, props, TextPoolsKeys, TextPoolsValues(s));
  }

  /** What `CairoDefaultsKeys` resolving means for each setting it reads (lines 182-185). */
  lemma ResolvedCairoDefaults(nums: Numerics, props: Properties, s: CairoSettings)
    requires ResolveAll(nums, props, CairoDefaultsKeys) == Success(CairoDefaultsValues(s))
    ensures GetInt(nums, props, "cairo.create.as.select.retry.count", 5) == Success(s.createAsSelectRetryCount)
    ensures s.defaultMapType == GetString(props, "cairo.default.map.type", "fast")
    ensures s.defaultSymbolCacheFlag == GetBoolean(props, "cairo.default.symbol.cache.flag", false)
    ensures GetInt(nums, props, "cairo.default.symbol.capacity", 256) == Success(s.defaultSymbolCapacity)
  {
    ResolvedAt(nums, props, CairoDefaultsKeys, CairoDefaultsValues(s));
  }

  /** What `CairoTimingsKeys` resolving means for each setting it reads (lines 186-189). */
  lemma ResolvedCairoTimings(nums: Numerics, props: Properties, s: CairoSettings)
    requires ResolveAll(nums, props, CairoTimingsKeys) == Success(CairoTimingsValues(s))
    ensures GetInt(nums, props, "cairo.file.operation.retry.count", 30) == Success(s.fileOperationRetryCount)
    ensures GetLong(nums, props, "cairo.idle.check.interval", 100) == Success(s.idleCheckInterval)
    ensures GetLong(nums, props, "cairo.inactive.reader.ttl", -10000) == Success(s.inactiveReaderTTL)
    ensures GetLong(nums, props, "cairo.inactive.writer.ttl", -10000) == Success(s.inactiveWriterTTL)
  {
    ResolvedAt(nums, props, CairoTimingsKeys, CairoTimingsValues(s));
  }

  /** What `CairoIndexingKeys` resolving means for each setting it reads (lines 190-193). */
  lemma ResolvedCairoIndexing(nums: Numerics, props: Properties, s: CairoSettings)
    requires ResolveAll(nums, props, CairoIndexingKeys) == Success(CairoIndexingValues(s))
    ensures GetIntSize(nums, props, "cairo.index.value.block.size", 256).Success? && s.indexValueBlockSize == nums.ceilPow2(GetIntSize(nums, props, "cairo.index.value.block.size", 256).value)
    ensures GetInt(nums, props, "cairo.max.swap.file.count", 30) == Success(s.maxSwapFileCount)
    ensures GetInt(nums, props, "cairo.mkdir.mode", 509) == Success(s.mkdirMode)
    ensures GetInt(nums, props, "cairo.parallel.index.threshold", 100000) == Success(s.parallelIndexThreshold)
  {
    ResolvedAt(nums, props, CairoIndexingKeys, CairoIndexingValues(s));
  }

  /** What `CairoCacheKeys` resolving means for each setting it reads (lines 194-197). */
  lemma ResolvedCairoCache(nums: Numerics, props: Properties, s: CairoSettings)
    requires ResolveAll(nums, props, CairoCacheKeys) == Success(CairoCacheValues(s))
    ensures GetInt(nums, props, "cairo.reader.pool.max.segments", 5) == Success(s.readerPoolMaxSegments)
    ensures GetLong(nums, props, "cairo.spin.lock.timeout", 1_000_000) == Success(s.spinLockTimeoutUs)
    ensures GetInt(nums, props, "cairo.cache.rows", 16) == Success(s.sqlCacheRows)
    ensures GetIntSize(nums, props, "cairo.cache.blocks", 4) == Success(s.sqlCacheBlocks)
  {
    ResolvedAt(nums, props, CairoCacheKeys, CairoCacheValues(s));
  }

  /** What `SqlStoresKeys` resolving means for each setting it reads (lines 198-201). */
  lemma ResolvedSqlStores(nums: Numerics, props: Properties, s: CairoSettings)
    requires ResolveAll(nums, props, SqlStoresKeys) == Success(SqlStoresValues(s))
    ensures GetInt(nums, props, "cairo.character.store.capacity", 1024) == Success(s.sqlCharacterStoreCapacity)
    ensures GetInt(nums, props, "cairo.character.store.sequence.pool.capacity", 64) == Success(s.sqlCharacterStoreSequencePoolCapacity)
    ensures GetInt(nums, props, "cairo.column.pool.capacity", 4096) == Success(s.sqlColumnPoolCapacity)
    ensures GetDouble(nums, props, "cairo.compact.map.load.factor", 0.7) == Success(s.sqlCompactMapLoadFactor)
  {
    ResolvedAt(nums, props, SqlStoresKeys, SqlStoresValues(s));
  }

  /** What `SqlPoolsKeys` resolving means for each setting it reads (lines 202-205). */
  lemma ResolvedSqlPools(nums: Numerics, props: Properties, s: CairoSettings)
    requires ResolveAll(nums, props, SqlPoolsKeys) == Success(SqlPoolsValues(s))
    ensures GetInt(nums, props, "cairo.expression.pool.capacity", 8192) == Success(s.sqlExpressionPoolCapacity)
    ensures GetDouble(nums, props, "cairo.fast.map.load.factor", 0.5) == Success(s.sqlFastMapLoadFactor)
    ensures GetInt(nums, props, "cairo.sql.join.context.pool.capacity", 64) == Success(s.sqlJoinContextPoolCapacity)
    ensures GetInt(nums, props, "cairo.lexer.pool.capacity", 2048) == Success(s.sqlLexerPoolCapacity)
  {
    ResolvedAt(nums, props, SqlPoolsKeys, SqlPoolsValues(s));
  }

  /** What `SqlPagesKeys` resolving means for each setting it reads (lines 206-209). */
  lemma ResolvedSqlPages(nums: Numerics, props: Properties, s: CairoSettings)
    requires ResolveAll(nums, props, SqlPagesKeys) == Success(SqlPagesValues(s))
    ensures GetInt(nums, props, "cairo.sql.map.key.capacity", 2048) == Success(s.sqlMapKeyCapacity)
    ensures GetIntSize(nums, props, "cairo.sql.map.page.size", 4 * 1024 * 1024) == Success(s.sqlMapPageSize)
    ensures GetInt(nums, props, "cairo.model.pool.capacity", 1024) == Success(s.sqlModelPoolCapacity)
    ensures GetIntSize(nums, props, "cairo.sql.sort.key.page.size", 4 * 1024 * 1024) == Success(s.sqlSortKeyPageSize)
  {
    ResolvedAt(nums, props, SqlPagesKeys, SqlPagesValues(s));
  }

  /** What `SqlJoinPagesKeys` resolving means for each setting it reads (lines 210-213). */
  lemma ResolvedSqlJoinPages(nums: Numerics, props: Properties, s: CairoSettings)
    requires ResolveAll(nums, props, SqlJoinPagesKeys) == Success(SqlJoinPagesValues(s))
    ensures GetIntSize(nums, props, "cairo.sql.sort.light.value.page.size", 1048576) == Success(s.sqlSortLightValuePageSize)
    ensures GetIntSize(nums, props, "cairo.sql.hash.join.value.page.size", 16777216) == Success(s.sqlHashJoinValuePageSize)
    ensures GetIntSize(nums, props, "cairo.sql.tree.page.size", 4 * 1024 * 1024) == Success(s.sqlTreePageSize)
    ensures GetIntSize(nums, props, "cairo.sql.hash.join.light.value.page.size", 1048576) == Success(s.sqlHashJoinLightValuePageSize)
  {
    ResolvedAt(nums, props, SqlJoinPagesKeys, SqlJoinPagesValues(s));
  }

  /** What `CairoWorkersKeys` resolving means for each setting it reads (lines 214-217). */
  lemma ResolvedCairoWorkers(nums: Numerics, props: Properties, s: CairoSettings)
    requires ResolveAll(nums, props, CairoWorkersKeys) == Success(CairoWorkersValues(s))
    ensures GetIntSize(nums, props, "cairo.sql.sort.value.page.size", 16777216) == Success(s.sqlSortValuePageSize)
    ensures GetLong(nums, props, "cairo.work.steal.timeout.nanos", 10_000) == Success(s.workStealTimeoutNanos)
    ensures s.parallelIndexingEnabled == GetBoolean(props, "cairo.parallel.indexing.enabled", true)
    ensures GetIntSize(nums, props, "cairo.sql.join.metadata.page.size", 16384) == Success(s.sqlJoinMetadataPageSize)
  {
    ResolvedAt(nums, props, CairoWorkersKeys, CairoWorkersValues(s));
  }

  /** What `LineUdpKeys` resolving means for each setting it reads (lines 224-228). */
  lemma ResolvedLineUdp(nums: Numerics, props: Properties, s: LineUdpSettings)
    requires ResolveAll(nums, props, LineUdpKeys) == Success(LineUdpValues(s))
    ensures GetIPv4Address(nums, props, "line.udp.join", "232.1.2.3") == Success(s.lineUdpGroupIPv4Address)
    ensures GetInt(nums, props, "line.udp.commit.rate", 10_000) == Success(s.lineUdpCommitRate)
    ensures GetIntSize(nums, props, "line.udp.msg.buffer.size", 1024 * 1024) == Success(s.lineUdpMsgBufferSize)
    ensures GetInt(nums, props, "line.udp.msg.count", 10_000) == Success(s.lineUdpMsgCount)
    ensures GetIntSize(nums, props, "line.udp.receive.buffer.size", 2048) == Success(s.lineUdpReceiveBufferSize)
  {
    ResolvedAt(nums, props, LineUdpKeys, LineUdpValues(s));
  }
}
