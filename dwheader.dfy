/** The parts of the DWDataReader header mirror that the wrappers rely on: the
    C integer widths of the native interface, the status enumeration `DWStatus`
    and the three fixed-layout records that are copied out of native memory. */
module DWHeader {
  import opened Results

  /** A C `int`: every native status code, count and channel index. */
  newtype int32 = x: int | -0x8000_0000 <= x < 0x8000_0000

  /** A C `unsigned int`: the channel color. */
  newtype uint32 = x: int | 0 <= x < 0x1_0000_0000

  newtype byte = x: int | 0 <= x < 0x100

  type Bytes = seq<byte>

  /** The bit pattern of a C `double`. Doubles are only copied and projected,
      never computed on, so their value is kept opaque. */
  type Double = bv64

  /** The status codes DWDataReaderLib returns; `Code` is the enum value and
      `Name` the member name an error reports. */
  datatype DWStatus =
    | StatOk
    | StatError
    | StatFileCannotOpen
    | StatFileAlreadyInUse
    | StatFileCorrupt
    | StatNoMemoryAlloc
    | StatCreateDestFile
    | StatExtractingFile
    | StatCannotOpenExtractedFile
  {
    function Code(): int
    {
      match this
      case StatOk => 0
      case StatError => 1
      case StatFileCannotOpen => 2
      case StatFileAlreadyInUse => 3
      case StatFileCorrupt => 4
      case StatNoMemoryAlloc => 5
      case StatCreateDestFile => 6
      case StatExtractingFile => 7
      case StatCannotOpenExtractedFile => 8
    }

    function Name(): string
    {
      match this
      case StatOk => "DWSTAT_OK"
      case StatError => "DWSTAT_ERROR"
      case StatFileCannotOpen => "DWSTAT_ERROR_FILE_CANNOT_OPEN"
      case StatFileAlreadyInUse => "DWSTAT_ERROR_FILE_ALREADY_IN_USE"
      case StatFileCorrupt => "DWSTAT_ERROR_FILE_CORRUPT"
      case StatNoMemoryAlloc => "DWSTAT_ERROR_NO_MEMORY_ALLOC"
      case StatCreateDestFile => "DWSTAT_ERROR_CREATE_DEST_FILE"
      case StatExtractingFile => "DWSTAT_ERROR_EXTRACTING_FILE"
      case StatCannotOpenExtractedFile => "DWSTAT_ERROR_CANNOT_OPEN_EXTRACTED_FILE"
    }
  }

  /** `DWStatus(code)`: the member with that value, or none when the lookup
      would raise ValueError. */
  function FromCode(code: int): (r: Option<DWStatus>)
    ensures r.Some? <==> 0 <= code <= 8
    ensures r.Some? ==> r.value.Code() == code
  {
    if code == 0 then Some(StatOk)
    else if code == 1 then Some(StatError)
    else if code == 2 then Some(StatFileCannotOpen)
    else if code == 3 then Some(StatFileAlreadyInUse)
    else if code == 4 then Some(StatFileCorrupt)
    else if code == 5 then Some(StatNoMemoryAlloc)
    else if code == 6 then Some(StatCreateDestFile)
    else if code == 7 then Some(StatExtractingFile)
    else if code == 8 then Some(StatCannotOpenExtractedFile)
    else None
  }

  /** `DWStatus[name]`: the member with that name, if any. */
  function FromName(name: string): (r: Option<DWStatus>)
    ensures r.Some? ==> r.value.Name() == name
  {
    if name == "DWSTAT_OK" then Some(StatOk)
    else if name == "DWSTAT_ERROR" then Some(StatError)
    else if name == "DWSTAT_ERROR_FILE_CANNOT_OPEN" then Some(StatFileCannotOpen)
    else if name == "DWSTAT_ERROR_FILE_ALREADY_IN_USE" then Some(StatFileAlreadyInUse)
    else if name == "DWSTAT_ERROR_FILE_CORRUPT" then Some(StatFileCorrupt)
    else if name == "DWSTAT_ERROR_NO_MEMORY_ALLOC" then Some(StatNoMemoryAlloc)
    else if name == "DWSTAT_ERROR_CREATE_DEST_FILE" then Some(StatCreateDestFile)
    else if name == "DWSTAT_ERROR_EXTRACTING_FILE" then Some(StatExtractingFile)
    else if name == "DWSTAT_ERROR_CANNOT_OPEN_EXTRACTED_FILE" then Some(StatCannotOpenExtractedFile)
    else None
  }

  /** Looking a member up by its value gives the member back. */
  lemma CodeRoundTrip(s: DWStatus)
    ensures FromCode(s.Code()) == Some(s)
  {
  }

  /** Looking a member up by its name gives the member back, so distinct
      members have distinct names. */
  lemma NameRoundTrip(s: DWStatus)
    ensures FromName(s.Name()) == Some(s)
  {
  }

  /** `DWChannel`: one slot of the buffer DWGetChannelList fills. The three text
      fields are the raw `char` arrays (100, 20 and 200 bytes in the header). */
  datatype DWChannel = DWChannel(
    index: int32,
    name: Bytes,
    unit: Bytes,
    description: Bytes,
    color: uint32,
    arraySize: int32,
    dataType: int32)

  /** `DWReducedValue`: one slot of the buffer DWGetReducedValues fills. */
  datatype DWReducedValue = DWReducedValue(
    timeStamp: Double,
    ave: Double,
    min: Double,
    max: Double,
    rms: Double)

  /** `DWFileInfo`: what DWOpenDataFile writes about the opened file. */
  datatype DWFileInfo = DWFileInfo(
    sampleRate: Double,
    startStoreTime: Double,
    duration: Double)

  /** Reading a `char` array field through ctypes yields its bytes up to, and
      not including, the first NUL byte. */
  function CString(raw: Bytes): (r: Bytes)
    ensures |r| <= |raw| && r == raw[..|r|]
    ensures forall i :: 0 <= i < |r| ==> r[i] != 0
    ensures |r| < |raw| ==> raw[|r|] == 0
  {
    if raw == [] || raw[0] == 0 then [] else [raw[0]] + CString(raw[1..])
  }

  /** A field holding a NUL-free text, its NUL and any bytes after it reads
      back as the text. */
  lemma {:induction false} CStringOfTerminated(text: Bytes, junk: Bytes)
    requires forall i :: 0 <= i < |text| ==> text[i] != 0
    ensures CString(text + [0] + junk) == text
  {
    if text != [] {
      assert (text + [0] + junk)[1..] == text[1..] + [0] + junk;
      CStringOfTerminated(text[1..], junk);
    }
  }

  /** A field with no NUL at all reads back whole. */
  lemma {:induction false} CStringNoNul(text: Bytes)
    requires forall i :: 0 <= i < |text| ==> text[i] != 0
    ensures CString(text) == text
  {
    if text != [] {
      CStringNoNul(text[1..]);
    }
  }
}
