/** The co-save persistence of the stored track (src/serialization/serde.cpp
    and serde.h): one record of type `STCM`, version 1, holding the stored
    track's form identifier or 0 for "none".

    The SKSE serialization interface becomes values: the outcome of opening
    and writing a record on save, the sequence of records met on load, and
    the two look-ups of load (`ResolveFormID` for the load-order remap and
    `LookupByID` for the form) as partial functions. */
module Serialization {
  import opened Common
  import opened Hooks

  /** The record version this build writes and accepts. */
  const Version: uint32 := 1

  /** `'CMDL'`, the plugin's co-save identifier. */
  const ID: uint32 := 0x434D_444C

  /** `'STCM'`, the type code of the stored-track record. */
  const StoredCombatMusic: uint32 := 0x5354_434D

  /** A record as the load loop meets it: its type code, its version and the
      form identifier `ReadRecordData` delivers, `None` when that read fails. */
  datatype Record = Record(typeCode: uint32, version: uint32, id: Option<FormID>)

  /** The identifier save writes for a stored track: its form identifier,
      or the null marker 0. */
  function SavedID(stored: Option<MusicType>): FormID
  {
    if stored.Some? then stored.value.formID else 0
  }

  /** The record a save leaves behind: none when the record cannot be opened;
      an `STCM` record of version 1 otherwise, whose identifier can be read
      back only when the write succeeded. */
  function SavedRecord(stored: Option<MusicType>, openOk: bool, writeOk: bool): (r: Option<Record>)
    ensures r.Some? <==> openOk
    ensures r.Some? ==> r.value.typeCode == StoredCombatMusic && r.value.version == Version
    ensures r.Some? && writeOk && stored.Some? ==> r.value.id == Some(stored.value.formID)
    ensures r.Some? && writeOk && stored.None? ==> r.value.id == Some(0)
    ensures r.Some? && !writeOk ==> r.value.id.None?
  {
    if !openOk then None
    else Some(Record(StoredCombatMusic, Version, if writeOk then Some(SavedID(stored)) else None))
  }

  /** `SaveCallback`: `openOk` and `writeOk` are what `OpenRecord` and
      `WriteRecordData` report. Saving reads the stored track and changes
      nothing. */
  method SaveCallback(calls: CombatMusicCalls, openOk: bool, writeOk: bool) returns (written: Option<Record>)
    ensures written == SavedRecord(calls.storedMusic, openOk, writeOk)
  {
    if !openOk {
      return None;
    }
    var currentCombatMusic := calls.GetCurrentCombatMusic();
    if currentCombatMusic.Some? {
      if !writeOk {
        return Some(Record(StoredCombatMusic, Version, None));
      }
      return Some(Record(StoredCombatMusic, Version, Some(currentCombatMusic.value.formID)));
    } else {
      var nullID: FormID := 0;
      if !writeOk {
        return Some(Record(StoredCombatMusic, Version, None));
      }
      return Some(Record(StoredCombatMusic, Version, Some(nullID)));
    }
  }

  /** The load-order remap of a saved form identifier (`ResolveFormID`). */
  type Remap = FormID -> Option<FormID>

  /** The form a (remapped) identifier names, if it is a music type
      (`LookupByID<BGSMusicType>`). */
  type Lookup = FormID -> Option<MusicType>

  /** The stored track after a matching record: none when the identifier
      cannot be read, is the null marker, cannot be remapped or names no
      music type; the music type found otherwise. Loading goes on only in
      the last case. */
  function LoadTrack(id: Option<FormID>, resolve: Remap, lookup: Lookup): (track: Option<MusicType>)
    ensures id.None? || id == Some(0) ==> track.None?
    ensures track.Some? <==>
              id.Some? && id.value != 0 && resolve(id.value).Some? && lookup(resolve(id.value).value).Some?
    ensures track.Some? ==> track == lookup(resolve(id.value).value)
  {
    if id.None? || id.value == 0 then None
    else if resolve(id.value).None? then None
    else lookup(resolve(id.value).value)
  }

  /** The stored track after loading `records` from the state `stored`, in
      record order: a wrong version ends loading; a record of another type is
      passed over; a stored-track record replaces the stored track and ends
      loading unless a track was found. */
  function LoadFrom(stored: Option<MusicType>, records: seq<Record>, resolve: Remap, lookup: Lookup): Option<MusicType>
    decreases |records|
  {
    if records == [] then stored
    else
      var r := records[0];
      if r.version != Version then stored
      else if r.typeCode != StoredCombatMusic then LoadFrom(stored, records[1..], resolve, lookup)
      else
        var track := LoadTrack(r.id, resolve, lookup);
        if track.None? then None else LoadFrom(track, records[1..], resolve, lookup)
  }

  /** `LoadCallback`: `records` are what `GetNextRecordInfo` hands out, in
      order. */
  method LoadCallback(calls: CombatMusicCalls, records: seq<Record>, resolve: Remap, lookup: Lookup)
    modifies calls`storedMusic
    ensures calls.storedMusic == LoadFrom(old(calls.storedMusic), records, resolve, lookup)
  {
    var i := 0;
    while i < |records|
      invariant 0 <= i <= |records|
      invariant LoadFrom(calls.storedMusic, records[i..], resolve, lookup) ==
                LoadFrom(old(calls.storedMusic), records, resolve, lookup)
    {
      var record := records[i];
      assert records[i..][1..] == records[i + 1..];
      if record.version != Version {
        return;
      }
      if record.typeCode == StoredCombatMusic {
        calls.SetCurrentCombatMusic(None);
        if record.id.None? {
          return;
        }
        var musicTypeOld := record.id.value;
        if musicTypeOld == 0 {
          return;
        }
        var musicTypeID := resolve(musicTypeOld);
        if musicTypeID.None? {
          return;
        }
        var musicTypeForm := lookup(musicTypeID.value);
        if musicTypeForm.None? {
          return;
        }
        calls.SetCurrentCombatMusic(musicTypeForm);
      }
      i := i + 1;
    }
  }

  /** `RevertCallback`: a new game or a revert forgets the stored track. */
  method RevertCallback(calls: CombatMusicCalls)
    modifies calls`storedMusic
    ensures calls.storedMusic.None?
  {
    calls.SetCurrentCombatMusic(None);
  }

  /** Records that are all of another type, at the current version, leave
      the stored track as it was. */
  lemma {:induction false} OtherRecordsIgnored(stored: Option<MusicType>, records: seq<Record>, resolve: Remap, lookup: Lookup)
    requires forall k :: 0 <= k < |records| ==> records[k].version == Version && records[k].typeCode != StoredCombatMusic
    ensures LoadFrom(stored, records, resolve, lookup) == stored
  {
    if records != [] {
      OtherRecordsIgnored(stored, records[1..], resolve, lookup);
    }
  }

  /** A record of a wrong version, reached after records of other types
      only, ends loading with the stored track unchanged, whatever follows. */
  lemma {:induction false} VersionMismatchStops(stored: Option<MusicType>, records: seq<Record>, k: nat,
                                                resolve: Remap, lookup: Lookup)
    requires k < |records| && records[k].version != Version
    requires forall j :: 0 <= j < k ==> records[j].version == Version && records[j].typeCode != StoredCombatMusic
    ensures LoadFrom(stored, records, resolve, lookup) == stored
  {
    if k > 0 {
      VersionMismatchStops(stored, records[1..], k - 1, resolve, lookup);
    }
  }

  /** A stored-track record that yields no track, reached after records of
      other types only, leaves the stored track none, whatever follows. */
  lemma {:induction false} FailedRecordClears(stored: Option<MusicType>, records: seq<Record>, k: nat,
                                              resolve: Remap, lookup: Lookup)
    requires k < |records| && records[k].version == Version && records[k].typeCode == StoredCombatMusic
    requires LoadTrack(records[k].id, resolve, lookup).None?
    requires forall j :: 0 <= j < k ==> records[j].version == Version && records[j].typeCode != StoredCombatMusic
    ensures LoadFrom(stored, records, resolve, lookup).None?
  {
    if k > 0 {
      FailedRecordClears(stored, records[1..], k - 1, resolve, lookup);
    }
  }

  /** Loading either keeps the stored track or ends on a track that some
      stored-track record read, remapped and looked up successfully, or on
      none: a track is never set without all three steps succeeding. */
  lemma {:induction false} LoadedTrackFound(stored: Option<MusicType>, records: seq<Record>, resolve: Remap, lookup: Lookup)
    ensures var result := LoadFrom(stored, records, resolve, lookup);
            || result == stored
            || result.None?
            || exists k :: 0 <= k < |records| && records[k].typeCode == StoredCombatMusic &&
                           result == LoadTrack(records[k].id, resolve, lookup)
    decreases |records|
  {
    if records != [] {
      var r := records[0];
      if r.version == Version {
        var next := if r.typeCode == StoredCombatMusic then LoadTrack(r.id, resolve, lookup) else stored;
        if r.typeCode != StoredCombatMusic || next.Some? {
          LoadedTrackFound(next, records[1..], resolve, lookup);
          var result := LoadFrom(next, records[1..], resolve, lookup);
          if result == next && r.typeCode == StoredCombatMusic {
            assert records[0].typeCode == StoredCombatMusic && result == LoadTrack(records[0].id, resolve, lookup);
          } else if result != next && result.Some? {
            var k :| 0 <= k < |records[1..]| && records[1..][k].typeCode == StoredCombatMusic &&
                     result == LoadTrack(records[1..][k].id, resolve, lookup);
            assert records[k + 1] == records[1..][k];
          }
        }
      }
    }
  }

  /** Save then load: with the remap and the look-up returning the saved
      track's own identifier and form, the stored track comes back, and
      "none" comes back as none, whatever was stored before the load. */
  lemma SaveLoadRoundTrip(saved: Option<MusicType>, before: Option<MusicType>, resolve: Remap, lookup: Lookup)
    requires saved.Some? ==> saved.value.formID != 0
    requires saved.Some? ==> resolve(saved.value.formID) == Some(saved.value.formID)
    requires saved.Some? ==> lookup(saved.value.formID) == saved
    ensures LoadFrom(before, [SavedRecord(saved, true, true).value], resolve, lookup) == saved
  {
    var r := SavedRecord(saved, true, true).value;
    assert [r][1..] == [];
  }

  /** A save whose write failed loads back as none. */
  lemma FailedWriteLoadsNone(saved: Option<MusicType>, before: Option<MusicType>, resolve: Remap, lookup: Lookup)
    ensures LoadFrom(before, [SavedRecord(saved, true, false).value], resolve, lookup).None?
  {
    var r := SavedRecord(saved, true, false).value;
    assert [r][1..] == [];
  }

  /** The value of a four-character literal such as `'STCM'`: the first
      character is the most significant byte. */
  function TypeCodeOf(tag: string): uint32
    requires |tag| == 4 && forall k :: 0 <= k < 4 ==> tag[k] as int < 256
  {
    (tag[0] as int * 0x100_0000 + tag[1] as int * 0x1_0000 + tag[2] as int * 0x100 + tag[3] as int) as uint32
  }

  /** `x` shifted right by `k` bytes. */
  function ShiftBytes(x: nat, k: nat): nat
  {
    if k == 0 then x else ShiftBytes(x / 0x100, k - 1)
  }

  /** Byte `k` of `code` in memory on a little-endian machine: byte 0 is the
      least significant. */
  function ByteAt(code: uint32, k: nat): (b: char)
    requires k < 4
    ensures b as int < 256
  {
    (ShiftBytes(code as nat, k) % 0x100) as char
  }

  /** What `DecodeTypeCode` returns: the three low bytes of the code, most
      significant first, then the `'\0'` left by `resize`. */
  function DecodedAsWritten(code: uint32): (sig: string)
    ensures |sig| == 4 && sig[3] == '\0'
  {
    [ByteAt(code, 2), ByteAt(code, 1), ByteAt(code, 0), '\0']
  }

  /** `DecodeTypeCode`: a four-character buffer filled by two counters, `i`
      over the code's bytes in memory and `j` down the buffer from position 2.
      `j` is an `int` here; in the source it wraps past zero as the loop
      ends, after its last use. */
  method DecodeTypeCode(typeCode: uint32) returns (sig: string)
    ensures sig == DecodedAsWritten(typeCode)
  {
    var buffer := new char[4](_ => '\0');
    var i, j := 0, 2;
    while i < 3
      invariant 0 <= i <= 3 && j == 2 - i
      invariant forall k :: 0 <= k < i ==> buffer[2 - k] == ByteAt(typeCode, k)
      invariant forall k :: 0 <= k <= j ==> buffer[k] == '\0'
      invariant buffer[3] == '\0'
    {
      buffer[j] := ByteAt(typeCode, i);
      i, j := i + 1, j - 1;
    }
    sig := buffer[..];
  }

  /** The tag a type code stands for: all four bytes, most significant
      first. */
  function TagOf(code: uint32): (tag: string)
    ensures |tag| == 4
  {
    [ByteAt(code, 3), ByteAt(code, 2), ByteAt(code, 1), ByteAt(code, 0)]
  }

  /** The decoding with the loop bound and the start of `j` widened to cover
      all four bytes. */
  method DecodeTypeCodeCorrected(typeCode: uint32) returns (sig: string)
    ensures sig == TagOf(typeCode)
  {
    var buffer := new char[4](_ => '\0');
    var i, j := 0, 3;
    while i < 4
      invariant 0 <= i <= 4 && j == 3 - i
      invariant forall k :: 0 <= k < i ==> buffer[3 - k] == ByteAt(typeCode, k)
    {
      buffer[j] := ByteAt(typeCode, i);
      i, j := i + 1, j - 1;
    }
    sig := buffer[..];
  }

  /** Euclidean division by 256 recovers a quotient and a byte written out. */
  lemma DivModByte(x: nat, q: nat, r: nat)
    requires r < 0x100 && x == q * 0x100 + r
    ensures x / 0x100 == q && x % 0x100 == r
  {
  }

  /** Byte `k` of the code of a tag is the tag's character `3 - k`. */
  lemma ByteOfTypeCode(tag: string, k: nat)
    requires |tag| == 4 && forall i :: 0 <= i < 4 ==> tag[i] as int < 256
    requires k < 4
    ensures ByteAt(TypeCodeOf(tag), k) == tag[3 - k]
  {
    var a, b, c, d := tag[0] as nat, tag[1] as nat, tag[2] as nat, tag[3] as nat;
    var x := TypeCodeOf(tag) as nat;
    DivModByte(x, (a * 0x100 + b) * 0x100 + c, d);
    DivModByte((a * 0x100 + b) * 0x100 + c, a * 0x100 + b, c);
    DivModByte(a * 0x100 + b, a, b);
    DivModByte(a, 0, a);
    var q1 := (a * 0x100 + b) * 0x100 + c;
    assert ShiftBytes(x, 1) == q1;
    assert ShiftBytes(x, 2) == ShiftBytes(q1, 1) == a * 0x100 + b;
    assert ShiftBytes(x, 3) == ShiftBytes(q1, 2) == ShiftBytes(a * 0x100 + b, 1) == a;
  }

  /** The corrected decoding inverts the four-character literal. */
  lemma TagOfTypeCode(tag: string)
    requires |tag| == 4 && forall k :: 0 <= k < 4 ==> tag[k] as int < 256
    ensures TagOf(TypeCodeOf(tag)) == tag
  {
    ByteOfTypeCode(tag, 0);
    ByteOfTypeCode(tag, 1);
    ByteOfTypeCode(tag, 2);
    ByteOfTypeCode(tag, 3);
  }

  /** Every type code is the literal of the tag the corrected decoding gives:
      no two codes decode to the same tag. */
  lemma TypeCodeOfTag(code: uint32)
    ensures TypeCodeOf(TagOf(code)) == code
  {
    var x := code as nat;
    var q1 := x / 0x100;
    var q2 := q1 / 0x100;
    var q3 := q2 / 0x100;
    assert ShiftBytes(x, 1) == q1;
    assert ShiftBytes(x, 2) == ShiftBytes(q1, 1) == q2;
    assert ShiftBytes(x, 3) == ShiftBytes(q1, 2) == ShiftBytes(q2, 1) == q3;
    assert q3 < 0x100;
    assert x == ((q3 * 0x100 + q2 % 0x100) * 0x100 + q1 % 0x100) * 0x100 + x % 0x100;
  }

  /** The record type code is the literal `'STCM'`, and the decoding as
      written loses its first letter: it gives `"TCM"` and a NUL. */
  lemma DecodeDropsFirstLetter()
    ensures StoredCombatMusic == TypeCodeOf("STCM")
    ensures DecodedAsWritten(StoredCombatMusic) == "TCM\0"
    ensures DecodedAsWritten(StoredCombatMusic) != "STCM"
    ensures TagOf(StoredCombatMusic) == "STCM"
  {
    TagOfTypeCode("STCM");
    ByteOfTypeCode("STCM", 0);
    ByteOfTypeCode("STCM", 1);
    ByteOfTypeCode("STCM", 2);
  }
}
