/** The wrappers around DWDataReaderLib: the session calls (init, open,
    close, de-init) with the usage protocol they must follow, the mapping of
    native status codes to errors, and the convenience functions that build
    channel lists, flatten reduced records and look a channel up by index or
    name. The native library itself is an oracle: a value that says what each
    entry point answers. */
module Wrappers {
  import opened Results
  import opened DWHeader

  // ---------------------------------------------------------------------------
  // What the wrappers cannot see: the host's text codecs and the native library
  // ---------------------------------------------------------------------------

  /** The host's text conversions: `str.encode(encoding)`, `os.fsencode`,
      `bytes.decode(encoding)` and `locale.getpreferredencoding()`. */
  datatype Codecs = Codecs(
    preferredEncoding: string,
    encode: (string, string) -> Bytes,
    fsencode: string -> Bytes,
    decode: (string, Bytes) -> string)

  /** What DWGetReducedValuesCount reports for one channel: its status and the
      two values it writes through its pointer arguments. */
  datatype ReducedCount = ReducedCount(status: int32, count: int32, seconds: Double)

  /** The answers of DWDataReaderLib in its current state. Buffers the library
      fills are described slot by slot: `channelSlot(i)` is slot `i` of the
      channel buffer after DWGetChannelList, and `reducedSlot(ch, pos, n, i)`
      slot `i` of the `n`-record buffer after DWGetReducedValues(ch, pos, n). */
  datatype Native = Native(
    initStatus: int32,
    deInitStatus: int32,
    closeStatus: int32,
    openStatus: Bytes -> int32,
    openInfo: Bytes -> DWFileInfo,
    channelListCount: int32,
    channelListStatus: int32,
    channelSlot: nat -> DWChannel,
    reducedValuesCount: int32 -> ReducedCount,
    reducedValuesStatus: (int32, int32, int32) -> int32,
    reducedSlot: (int32, int32, int32, nat) -> DWReducedValue)

  // ---------------------------------------------------------------------------
  // Values the wrappers return and the errors they raise
  // ---------------------------------------------------------------------------

  /** The namedtuple `FileInfo`. */
  datatype FileInfo = FileInfo(sampleRate: Double, startStoreTime: Double, duration: Double)

  /** The namedtuple `Channel`, with its three text fields decoded. */
  datatype Channel = Channel(
    index: int32,
    name: string,
    unit: string,
    description: string,
    color: uint32,
    arraySize: int32,
    dataType: int32)

  /** A reduced record as the tuple `(time_stamp, ave, min, max, rms)`. */
  type Record = seq<Double>

  /** The `channel` argument of `channel_reduced`: an `int` or a `str`. */
  datatype ChannelKey = ByIndex(index: int) | ByName(name: string)

  /** The file name given to `open_data_file`: a `str` or `bytes`. */
  datatype FileName = Text(text: string) | Raw(bytes: Bytes)

  datatype Error =
    | RuntimeError(message: string)         // RuntimeError with a status name or a fixed text
    | InvalidStatus(code: int)              // ValueError from DWStatus(code) on an unknown code
    | NegativeLength(length: int)           // ValueError from ctypes: array length must be >= 0
    | ChannelNotFound(channel: ChannelKey)  // ValueError(channel, 'not found in data')
    | TupleIndexOutOfRange(index: int)      // IndexError from rec[reduction]

  // ---------------------------------------------------------------------------
  // Status codes
  // ---------------------------------------------------------------------------

  /** The error raised for a non-zero status: `RuntimeError(DWStatus(stat).name)`,
      or the ValueError of the enum lookup when the code is not a member. */
  function StatusError(stat: int32): (e: Error)
    ensures 0 <= stat <= 8 ==> e.RuntimeError? && FromName(e.message) == FromCode(stat as int)
    ensures !(0 <= stat <= 8) ==> e == InvalidStatus(stat as int)
  {
    match FromCode(stat as int)
    case Some(s) => NameRoundTrip(s); RuntimeError(s.Name())
    case None => InvalidStatus(stat as int)
  }

  /** The check every status-returning wrapper makes before returning `value`. */
  function CheckStatus<T>(stat: int32, value: T): (r: Result<T, Error>)
    ensures r.Ok? <==> stat == 0
    ensures r.Ok? ==> r.value == value
    ensures r.Err? ==> r.error == StatusError(stat)
  {
    if stat == 0 then Ok(value) else Err(StatusError(stat))
  }

  /** A failed check names the status it failed on: the message of the
      RuntimeError looks up, by name, the member whose value is the code. */
  lemma {:induction false} StatusErrorNamesCode<T>(stat: int32, value: T)
    requires CheckStatus(stat, value).Err?
    ensures var e := CheckStatus(stat, value).error;
            (1 <= stat <= 8 <==> e.RuntimeError?)
            && (e.RuntimeError? ==> FromName(e.message).Some? && FromName(e.message).value.Code() == stat as int)
            && (e.InvalidStatus? ==> e.code == stat as int)
  {
  }

  // ---------------------------------------------------------------------------
  // open_data_file: the file name handed to DWOpenDataFile
  // ---------------------------------------------------------------------------

  /** `bytes` pass through untouched; a `str` is encoded with `fsencoding` when
      it is given and non-empty, and with `os.fsencode` otherwise. */
  function EncodeFileName(codecs: Codecs, filename: FileName, fsencoding: Option<string>): (r: Bytes)
    ensures filename.Raw? ==> r == filename.bytes
    ensures filename.Text? && fsencoding.Some? && fsencoding.value != "" ==>
              r == codecs.encode(fsencoding.value, filename.text)
    ensures filename.Text? && (fsencoding.None? || fsencoding.value == "") ==>
              r == codecs.fsencode(filename.text)
  {
    match filename
    case Raw(b) => b
    case Text(s) =>
      if fsencoding.Some? && fsencoding.value != "" then codecs.encode(fsencoding.value, s)
      else codecs.fsencode(s)
  }

  /** `fsencoding` has no effect on a `bytes` file name. */
  lemma RawFileNameIgnoresEncoding(codecs: Codecs, b: Bytes, e1: Option<string>, e2: Option<string>)
    ensures EncodeFileName(codecs, Raw(b), e1) == EncodeFileName(codecs, Raw(b), e2) == b
  {
  }

  function AsFileInfo(info: DWFileInfo): FileInfo
  {
    FileInfo(info.sampleRate, info.startStoreTime, info.duration)
  }

  // ---------------------------------------------------------------------------
  // Channel list
  // ---------------------------------------------------------------------------

  /** `get_channel_list_count`: the native count, except that -1 raises. */
  function GetChannelListCount(native: Native): (r: Result<int32, Error>)
    ensures r.Ok? <==> native.channelListCount != -1
    ensures r.Ok? ==> r.value == native.channelListCount
    ensures r.Err? ==> r.error == RuntimeError("get_channel_list_count returned -1")
  {
    if native.channelListCount == -1 then Err(RuntimeError("get_channel_list_count returned -1"))
    else Ok(native.channelListCount)
  }

  /** `encoding or locale.getpreferredencoding()`. */
  function ChosenEncoding(codecs: Codecs, encoding: Option<string>): (e: string)
    ensures encoding.Some? && encoding.value != "" ==> e == encoding.value
    ensures encoding.None? || encoding.value == "" ==> e == codecs.preferredEncoding
  {
    if encoding.Some? && encoding.value != "" then encoding.value else codecs.preferredEncoding
  }

  /** One `Channel` built from one slot of the native buffer: the numbers are
      copied, and each text is the decoding of its field up to the first NUL. */
  function DecodeChannel(codecs: Codecs, enc: string, raw: DWChannel): (ch: Channel)
    ensures ch.index == raw.index && ch.color == raw.color
            && ch.arraySize == raw.arraySize && ch.dataType == raw.dataType
    ensures ch.name == codecs.decode(enc, CString(raw.name))
            && ch.unit == codecs.decode(enc, CString(raw.unit))
            && ch.description == codecs.decode(enc, CString(raw.description))
  {
    Channel(raw.index,
            codecs.decode(enc, CString(raw.name)),
            codecs.decode(enc, CString(raw.unit)),
            codecs.decode(enc, CString(raw.description)),
            raw.color, raw.arraySize, raw.dataType)
  }

  /** Whatever the library leaves in a text field after its terminating NUL
      does not reach the decoded channel. */
  lemma DecodeChannelStopsAtNul(codecs: Codecs, enc: string, raw: DWChannel, name: Bytes, unit: Bytes,
                                description: Bytes, j1: Bytes, j2: Bytes, j3: Bytes)
    requires forall i :: 0 <= i < |name| ==> name[i] != 0
    requires forall i :: 0 <= i < |unit| ==> unit[i] != 0
    requires forall i :: 0 <= i < |description| ==> description[i] != 0
    ensures var padded := raw.(name := name + [0] + j1, unit := unit + [0] + j2,
                               description := description + [0] + j3);
            DecodeChannel(codecs, enc, padded) == DecodeChannel(codecs, enc, raw.(name := name, unit := unit,
                                                                              description := description))
  {
    CStringOfTerminated(name, j1);
    CStringOfTerminated(unit, j2);
    CStringOfTerminated(description, j3);
    CStringNoNul(name);
    CStringNoNul(unit);
    CStringNoNul(description);
  }

  /** What `get_channel_list(encoding)` returns or raises: one Channel per slot
      of a buffer as long as the channel count, in slot order, with index,
      color, array size and data type copied through and the three texts
      decoded with the chosen encoding. */
  function ChannelListOf(native: Native, codecs: Codecs, encoding: Option<string>): (r: Result<seq<Channel>, Error>)
    ensures r.Ok? <==> native.channelListCount >= 0 && native.channelListStatus == 0
    ensures native.channelListCount == -1 ==> r == Err(RuntimeError("get_channel_list_count returned -1"))
    ensures native.channelListCount < -1 ==> r == Err(NegativeLength(native.channelListCount as int))
    ensures native.channelListCount >= 0 && native.channelListStatus != 0 ==>
              r == Err(StatusError(native.channelListStatus))
    ensures r.Ok? ==>
              |r.value| == native.channelListCount as int
              && forall i :: 0 <= i < |r.value| ==>
                   var ch, raw := r.value[i], native.channelSlot(i);
                   && ch.index == raw.index && ch.color == raw.color
                   && ch.arraySize == raw.arraySize && ch.dataType == raw.dataType
                   && ch.name == codecs.decode(ChosenEncoding(codecs, encoding), CString(raw.name))
                   && ch.unit == codecs.decode(ChosenEncoding(codecs, encoding), CString(raw.unit))
                   && ch.description == codecs.decode(ChosenEncoding(codecs, encoding), CString(raw.description))
  {
    match GetChannelListCount(native)
    case Err(e) => Err(e)
    case Ok(n) =>
      if n < 0 then Err(NegativeLength(n as int))
      else match CheckStatus(native.channelListStatus, ())
        case Err(e) => Err(e)
        case Ok(_) =>
          var enc := ChosenEncoding(codecs, encoding);
          Ok(seq(n as int, i requires 0 <= i < n as int => DecodeChannel(codecs, enc, native.channelSlot(i))))
  }

  /** `get_channel_list`: sizes the buffer by the channel count, lets the
      library fill it, checks the status and appends one Channel per slot. */
  method GetChannelList(native: Native, codecs: Codecs, encoding: Option<string>) returns (r: Result<seq<Channel>, Error>)
    ensures r == ChannelListOf(native, codecs, encoding)
  {
    var count := GetChannelListCount(native);
    if count.Err? {
      return Err(count.error);
    }
    var n := count.value;
    if n < 0 {
      return Err(NegativeLength(n as int));
    }
    var stat := native.channelListStatus;
    if stat != 0 {
      return Err(StatusError(stat));
    }
    var enc := ChosenEncoding(codecs, encoding);
    var res: seq<Channel> := [];
    for i := 0 to n as int
      invariant |res| == i
      invariant forall j :: 0 <= j < i ==> res[j] == DecodeChannel(codecs, enc, native.channelSlot(j))
    {
      res := res + [DecodeChannel(codecs, enc, native.channelSlot(i))];
    }
    assert res == seq(n as int, i requires 0 <= i < n as int => DecodeChannel(codecs, enc, native.channelSlot(i)));
    return Ok(res);
  }

  // ---------------------------------------------------------------------------
  // Reduced values
  // ---------------------------------------------------------------------------

  /** `get_reduced_values_count(ch_index)`: the pair (count, seconds) the
      library reports, once its status is 0. */
  function GetReducedValuesCount(native: Native, chIndex: int32): (r: Result<(int32, Double), Error>)
    ensures var a := native.reducedValuesCount(chIndex);
            && (r.Ok? <==> a.status == 0)
            && (r.Ok? ==> r.value == (a.count, a.seconds))
            && (r.Err? ==> r.error == StatusError(a.status))
  {
    var a := native.reducedValuesCount(chIndex);
    CheckStatus(a.status, (a.count, a.seconds))
  }

  function AsRecord(v: DWReducedValue): Record
  {
    [v.timeStamp, v.ave, v.min, v.max, v.rms]
  }

  /** `get_reduced_values(ch_index, position, count)`: exactly `count` records
      in buffer order, each as (time_stamp, ave, min, max, rms). The buffer is
      allocated before the library is called, so a negative count fails first. */
  function GetReducedValues(native: Native, chIndex: int32, position: int32, count: int32): (r: Result<seq<Record>, Error>)
    ensures r.Ok? <==> count >= 0 && native.reducedValuesStatus(chIndex, position, count) == 0
    ensures count < 0 ==> r == Err(NegativeLength(count as int))
    ensures count >= 0 && native.reducedValuesStatus(chIndex, position, count) != 0 ==>
              r == Err(StatusError(native.reducedValuesStatus(chIndex, position, count)))
    ensures r.Ok? ==>
              |r.value| == count as int
              && forall i :: 0 <= i < |r.value| ==>
                   var v := native.reducedSlot(chIndex, position, count, i);
                   r.value[i] == [v.timeStamp, v.ave, v.min, v.max, v.rms]
  {
    if count < 0 then Err(NegativeLength(count as int))
    else
      match CheckStatus(native.reducedValuesStatus(chIndex, position, count), ())
      case Err(e) => Err(e)
      case Ok(_) =>
        Ok(seq(count as int, i requires 0 <= i < count as int => AsRecord(native.reducedSlot(chIndex, position, count, i))))
  }

  /** `t[i]` on a Python tuple: a negative index counts from the end, and an
      index outside `-|t| <= i < |t|` raises IndexError. */
  function TupleItem(t: Record, i: int): (r: Option<Double>)
    ensures r.Some? <==> -|t| <= i < |t|
    ensures 0 <= i < |t| ==> r == Some(t[i])
    ensures -|t| <= i < 0 ==> r == Some(t[|t| + i])
  {
    if 0 <= i < |t| then Some(t[i])
    else if -|t| <= i < 0 then Some(t[|t| + i])
    else None
  }

  /** The reduction numbers of `channel_reduced`: 0 time_stamp, 1 ave, 2 min,
      3 max, 4 rms; -1 to -5 address the same fields from the end, and any
      other number selects nothing. */
  lemma ReductionSelectsField(v: DWReducedValue, reduction: int)
    ensures reduction == 0 ==> TupleItem(AsRecord(v), reduction) == Some(v.timeStamp)
    ensures reduction == 1 ==> TupleItem(AsRecord(v), reduction) == Some(v.ave)
    ensures reduction == 2 ==> TupleItem(AsRecord(v), reduction) == Some(v.min)
    ensures reduction == 3 ==> TupleItem(AsRecord(v), reduction) == Some(v.max)
    ensures reduction == 4 ==> TupleItem(AsRecord(v), reduction) == Some(v.rms)
    ensures -5 <= reduction < 0 ==> TupleItem(AsRecord(v), reduction) == TupleItem(AsRecord(v), reduction + 5)
    ensures TupleItem(AsRecord(v), reduction).None? <==> !(-5 <= reduction < 5)
  {
  }

  /** `[rec[reduction] for rec in records]`: element `i` is item `reduction`
      of record `i`; IndexError as soon as one record has no such item, so an
      empty list never fails. */
  function ProjectAll(records: seq<Record>, reduction: int): (r: Result<seq<Double>, Error>)
    ensures r.Ok? <==> forall i :: 0 <= i < |records| ==> TupleItem(records[i], reduction).Some?
    ensures r.Ok? ==> |r.value| == |records|
                      && forall i :: 0 <= i < |records| ==> TupleItem(records[i], reduction) == Some(r.value[i])
    ensures r.Err? ==> r.error == TupleIndexOutOfRange(reduction)
  {
    if records == [] then Ok([])
    else
      match TupleItem(records[0], reduction)
      case None => Err(TupleIndexOutOfRange(reduction))
      case Some(x) =>
        match ProjectAll(records[1..], reduction)
        case Err(e) => Err(e)
        case Ok(rest) => Ok([x] + rest)
  }

  // ---------------------------------------------------------------------------
  // channel_reduced
  // ---------------------------------------------------------------------------

  /** The comparison `channel_reduced` makes: an `int` key against the
      channel's `index` field, any other key against its `name`. */
  predicate Matches(ch: Channel, key: ChannelKey)
    ensures key.ByIndex? ==> (Matches(ch, key) <==> ch.index as int == key.index)
    ensures key.ByName? ==> (Matches(ch, key) <==> ch.name == key.name)
  {
    match key
    case ByIndex(i) => ch.index as int == i
    case ByName(n) => ch.name == n
  }

  /** The position of the first channel in list order that matches `key`. */
  function FindChannel(chs: seq<Channel>, key: ChannelKey): (r: Option<nat>)
    ensures r.Some? ==> r.value < |chs| && Matches(chs[r.value], key)
                        && forall j :: 0 <= j < r.value ==> !Matches(chs[j], key)
    ensures r.None? <==> forall j :: 0 <= j < |chs| ==> !Matches(chs[j], key)
  {
    if chs == [] then None
    else if Matches(chs[0], key) then Some(0)
    else
      match FindChannel(chs[1..], key)
      case None => None
      case Some(k) => Some(k + 1)
  }

  /** What `channel_reduced(channel, reduction, encoding)` returns or raises. */
  function ChannelReducedOutcome(native: Native, codecs: Codecs, channel: ChannelKey, reduction: int,
                                 encoding: Option<string>): (r: Result<seq<Double>, Error>)
    ensures ChannelListOf(native, codecs, encoding).Err? ==> r == Err(ChannelListOf(native, codecs, encoding).error)
    ensures r == Err(ChannelNotFound(channel))
            <==> && ChannelListOf(native, codecs, encoding).Ok?
                 && forall j :: 0 <= j < |ChannelListOf(native, codecs, encoding).value| ==>
                      !Matches(ChannelListOf(native, codecs, encoding).value[j], channel)
    ensures r.Err? && r.error.TupleIndexOutOfRange? ==> r.error.index == reduction
  {
    match ChannelListOf(native, codecs, encoding)
    case Err(e) => Err(e)
    case Ok(chs) =>
      match FindChannel(chs, channel)
      case None => Err(ChannelNotFound(channel))
      case Some(k) =>
        var index := chs[k].index;
        match GetReducedValuesCount(native, index)
        case Err(e) => Err(e)
        case Ok(counted) =>
          match GetReducedValues(native, index, 0, counted.0)
          case Err(e) => Err(e)
          case Ok(records) => ProjectAll(records, reduction)
  }

  /** `channel_reduced`: a search with break over the channel list, then the
      count query, the record fetch from position 0 and the projection. */
  method ChannelReduced(native: Native, codecs: Codecs, channel: ChannelKey, reduction: int,
                        encoding: Option<string>) returns (r: Result<seq<Double>, Error>)
    ensures r == ChannelReducedOutcome(native, codecs, channel, reduction, encoding)
  {
    var listed := GetChannelList(native, codecs, encoding);
    if listed.Err? {
      return Err(listed.error);
    }
    var chs := listed.value;
    var index: Option<int32> := None;
    for k := 0 to |chs|
      invariant index.None?
      invariant forall j :: 0 <= j < k ==> !Matches(chs[j], channel)
    {
      if Matches(chs[k], channel) {
        assert FindChannel(chs, channel) == Some(k);
        index := Some(chs[k].index);
        break;
      }
    }
    if index.None? {
      return Err(ChannelNotFound(channel));
    }
    var counted := GetReducedValuesCount(native, index.value);
    if counted.Err? {
      return Err(counted.error);
    }
    var cnt := counted.value.0;
    var records := GetReducedValues(native, index.value, 0, cnt);
    if records.Err? {
      return Err(records.error);
    }
    r := ProjectAll(records.value, reduction);
  }

  /** A successful `channel_reduced` stated against the library alone: there is
      a first slot whose decoded channel matches the key; its `index` field
      (not its position) is the channel asked for; the result has as many
      elements as the count query reports for that channel, and element `i` is
      item `reduction` of record `i` fetched from position 0. */
  lemma {:induction false} ChannelReducedResult(native: Native, codecs: Codecs, channel: ChannelKey,
                                                reduction: int, encoding: Option<string>)
    requires ChannelReducedOutcome(native, codecs, channel, reduction, encoding).Ok?
    ensures var vals := ChannelReducedOutcome(native, codecs, channel, reduction, encoding).value;
            var enc := ChosenEncoding(codecs, encoding);
            exists k: nat ::
              && k < native.channelListCount as int
              && Matches(DecodeChannel(codecs, enc, native.channelSlot(k)), channel)
              && (forall j: nat :: j < k ==> !Matches(DecodeChannel(codecs, enc, native.channelSlot(j)), channel))
              && var index := native.channelSlot(k).index;
                 var counted := native.reducedValuesCount(index);
                 && counted.status == 0
                 && |vals| == counted.count as int
                 && forall i :: 0 <= i < |vals| ==>
                      TupleItem(AsRecord(native.reducedSlot(index, 0, counted.count, i)), reduction) == Some(vals[i])
  {
    var vals := ChannelReducedOutcome(native, codecs, channel, reduction, encoding).value;
    var enc := ChosenEncoding(codecs, encoding);
    var chs := ChannelListOf(native, codecs, encoding).value;
    var k := FindChannel(chs, channel).value;
    assert chs[k] == DecodeChannel(codecs, enc, native.channelSlot(k));
    forall j: nat | j < k ensures !Matches(DecodeChannel(codecs, enc, native.channelSlot(j)), channel) {
      assert chs[j] == DecodeChannel(codecs, enc, native.channelSlot(j));
    }
    var index := chs[k].index;
    var counted := native.reducedValuesCount(index);
    var records := GetReducedValues(native, index, 0, counted.count).value;
    forall i | 0 <= i < |vals|
      ensures TupleItem(AsRecord(native.reducedSlot(index, 0, counted.count, i)), reduction) == Some(vals[i])
    {
      assert records[i] == AsRecord(native.reducedSlot(index, 0, counted.count, i));
    }
  }

  /** When no channel matches, `channel_reduced` raises ValueError whatever the
      library would answer about reduced values: neither the count nor the
      records are asked for. */
  lemma ChannelReducedNotFound(native: Native, codecs: Codecs, channel: ChannelKey, reduction: int,
                               encoding: Option<string>,
                               counts: int32 -> ReducedCount,
                               statuses: (int32, int32, int32) -> int32,
                               slots: (int32, int32, int32, nat) -> DWReducedValue)
    requires ChannelListOf(native, codecs, encoding).Ok?
    requires forall ch :: ch in ChannelListOf(native, codecs, encoding).value ==> !Matches(ch, channel)
    ensures ChannelReducedOutcome(native, codecs, channel, reduction, encoding) == Err(ChannelNotFound(channel))
    ensures ChannelReducedOutcome(native.(reducedValuesCount := counts, reducedValuesStatus := statuses,
                                          reducedSlot := slots),
                                  codecs, channel, reduction, encoding)
            == Err(ChannelNotFound(channel))
  {
    var chs := ChannelListOf(native, codecs, encoding).value;
    assert forall j :: 0 <= j < |chs| ==> chs[j] in chs;
    var other := native.(reducedValuesCount := counts, reducedValuesStatus := statuses, reducedSlot := slots);
    assert ChannelListOf(other, codecs, encoding) == ChannelListOf(native, codecs, encoding);
  }

  /** An `int` key is compared with the `index` field, not with the list
      position: a channel whose index differs from its position is still
      found by its index. */
  lemma IndexKeyFindsIndexField(chs: seq<Channel>, p: nat)
    requires p < |chs|
    requires forall j :: 0 <= j < p ==> chs[j].index != chs[p].index
    ensures FindChannel(chs, ByIndex(chs[p].index as int)) == Some(p)
  {
  }

  /** A name key finds the first channel with that name even when later
      channels share it. */
  lemma NameKeyFindsFirst(chs: seq<Channel>, p: nat)
    requires p < |chs|
    requires forall j :: 0 <= j < p ==> chs[j].name != chs[p].name
    ensures FindChannel(chs, ByName(chs[p].name)) == Some(p)
  {
  }

  // ---------------------------------------------------------------------------
  // The library session: init, open, close and de-init in protocol order
  // ---------------------------------------------------------------------------

  /** One call into the library as the session sees it; `Body` stands for the
      user code that runs while a file is open. */
  datatype Call = Init | Open(fileName: Bytes, succeeded: bool) | Body | Close | DeInit

  datatype Phase = Uninitialised | Initialised | FileOpen

  /** The usage protocol: init must come before any other call, close needs an
      open file, de-init ends the session and init may start a new one. A call
      the protocol forbids has no next phase. */
  function Step(p: Phase, c: Call): (r: Option<Phase>)
    ensures c.Init? || c.Body? ==> r.Some?
    ensures c.Open? || c.DeInit? ==> (r.Some? <==> p != Uninitialised)
    ensures c.Close? ==> (r.Some? <==> p == FileOpen)
    ensures r.Some? && c.Init? ==> r.value != Uninitialised
    ensures r.Some? && (c.Close? || c.DeInit?) ==> r.value != FileOpen
    ensures r == Some(FileOpen) ==> p == FileOpen || (c.Open? && c.succeeded)
    ensures r.Some? && c.DeInit? ==> r.value == Uninitialised
  {
    match c
    case Init => Some(if p == Uninitialised then Initialised else p)
    case Open(_, succeeded) => if p == Uninitialised then None else Some(if succeeded then FileOpen else p)
    case Body => Some(p)
    case Close => if p == FileOpen then Some(Initialised) else None
    case DeInit => if p == Uninitialised then None else Some(Uninitialised)
  }

  /** The phase after a sequence of calls, or none once a call broke the protocol. */
  function Run(p: Option<Phase>, calls: seq<Call>): (r: Option<Phase>)
    ensures p.None? ==> r.None?
    ensures p.Some? && r.None? ==>
              exists i :: 0 <= i < |calls| && (calls[i].Open? || calls[i].Close? || calls[i].DeInit?)
    ensures r.Some? && calls != [] && calls[|calls| - 1].DeInit? ==> r.value == Uninitialised
    ensures r.Some? && calls != [] && calls[|calls| - 1].Close? ==> r.value == Initialised
    decreases |calls|
  {
    if calls == [] || p.None? then p
    else
      var r := Run(Step(p.value, calls[0]), calls[1..]);
      assert forall i :: 1 <= i < |calls| ==> calls[i] == calls[1..][i - 1];
      r
  }

  lemma {:induction false} RunAppend(p: Option<Phase>, s: seq<Call>, t: seq<Call>)
    ensures Run(p, s + t) == Run(Run(p, s), t)
    decreases |s|
  {
    if s == [] {
      assert s + t == t;
    } else if p.Some? {
      assert (s + t)[0] == s[0] && (s + t)[1..] == s[1..] + t;
      RunAppend(Step(p.value, s[0]), s[1..], t);
    } else {
      assert Run(None, t) == None;
    }
  }

  /** Running a first call and then the rest. */
  lemma RunCons(p: Phase, c: Call, rest: seq<Call>)
    ensures Run(Some(p), [c] + rest) == Run(Step(p, c), rest)
  {
    assert ([c] + rest)[0] == c && ([c] + rest)[1..] == rest;
  }

  /** A close is allowed after a history of calls exactly when that history
      left a file open. */
  lemma CloseNeedsOpenFile(calls: seq<Call>)
    ensures Run(Some(Uninitialised), calls + [Close]).Some? <==> Run(Some(Uninitialised), calls) == Some(FileOpen)
  {
    RunAppend(Some(Uninitialised), calls, [Close]);
  }

  /** The module state of `wrappers` together with the library's own: the
      attribute `fileinfo`, the protocol phase and the calls made so far. */
  class Library {
    var fileinfo: Option<FileInfo>
    ghost var phase: Phase
    ghost var calls: seq<Call>

    ghost predicate Valid()
      reads this
    {
      Run(Some(Uninitialised), calls) == Some(phase)
    }

    /** The loaded library, before any call. */
    constructor ()
      ensures Valid() && phase == Uninitialised && calls == [] && fileinfo == None
    {
      fileinfo := None;
      phase := Uninitialised;
      calls := [];
    }

    /** `init()`: returns the status of DWInit unchecked. */
    method Init(native: Native) returns (stat: int32)
      requires Valid()
      modifies this
      ensures Valid() && fileinfo == old(fileinfo)
      ensures stat == native.initStatus
      ensures calls == old(calls) + [Call.Init]
      ensures phase == if old(phase) == Uninitialised then Initialised else old(phase)
    {
      RunAppend(Some(Uninitialised), calls, [Call.Init]);
      calls := calls + [Call.Init];
      phase := if phase == Uninitialised then Initialised else phase;
      stat := native.initStatus;
    }

    /** `open_data_file(filename, fsencoding)`: encodes the name, calls
      DWOpenDataFile and returns the file information once the status is 0. */
    method OpenDataFile(native: Native, codecs: Codecs, filename: FileName, fsencoding: Option<string>)
      returns (r: Result<FileInfo, Error>)
      requires Valid() && phase != Uninitialised
      modifies this
      ensures Valid() && fileinfo == old(fileinfo)
      ensures var name := EncodeFileName(codecs, filename, fsencoding);
              && r == CheckStatus(native.openStatus(name), AsFileInfo(native.openInfo(name)))
              && calls == old(calls) + [Open(name, r.Ok?)]
              && phase == if r.Ok? then FileOpen else old(phase)
    {
      var name := EncodeFileName(codecs, filename, fsencoding);
      var stat := native.openStatus(name);
      r := CheckStatus(stat, AsFileInfo(native.openInfo(name)));
      RunAppend(Some(Uninitialised), calls, [Open(name, r.Ok?)]);
      calls := calls + [Open(name, r.Ok?)];
      phase := if r.Ok? then FileOpen else phase;
    }

    /** `close_data_file()`: only with a file open (the library crashes
      otherwise); returns the status of DWCloseDataFile unchecked. */
    method CloseDataFile(native: Native) returns (stat: int32)
      requires Valid() && phase == FileOpen
      modifies this
      ensures Valid() && fileinfo == old(fileinfo)
      ensures stat == native.closeStatus
      ensures calls == old(calls) + [Close] && phase == Initialised
    {
      RunAppend(Some(Uninitialised), calls, [Close]);
      calls := calls + [Close];
      phase := Initialised;
      stat := native.closeStatus;
    }

    /** `de_init()`: ends the session; returns the status of DWDeInit unchecked. */
    method DeInit(native: Native) returns (stat: int32)
      requires Valid() && phase != Uninitialised
      modifies this
      ensures Valid() && fileinfo == old(fileinfo)
      ensures stat == native.deInitStatus
      ensures calls == old(calls) + [Call.DeInit] && phase == Uninitialised
    {
      RunAppend(Some(Uninitialised), calls, [Call.DeInit]);
      calls := calls + [Call.DeInit];
      phase := Uninitialised;
      stat := native.deInitStatus;
    }

    /** The user code of a `with` block runs; it is opaque to the model and
      leaves the library's state alone. */
    method RunBody()
      requires Valid()
      modifies this
      ensures Valid() && fileinfo == old(fileinfo)
      ensures calls == old(calls) + [Body] && phase == old(phase)
    {
      RunAppend(Some(Uninitialised), calls, [Body]);
      calls := calls + [Body];
    }
  }
}
