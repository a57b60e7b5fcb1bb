/**
 * The photo picker (src/components/PhotoPicker.tsx): a chosen file is
 * accepted only if it is a JPEG or PNG no larger than the size limit; an
 * accepted file is read as a data URL and handed to `onChange` when the read
 * completes.  The data-URL encoding itself is an opaque string.
 */
module PhotoPicker {
  import opened Wrappers
  import opened Text

  /** `MAX_DEFAULT_MB` */
  const MaxDefaultMb := 2

  const TypeError := "Hanya file JPEG atau PNG yang diperbolehkan."

  datatype FileInfo = FileInfo(mimeType: string, size: int)

  datatype Verdict = NoFile | WrongType | TooLarge | Accepted

  /** `maxSizeMb * 1024 * 1024` */
  function MaxBytes(maxSizeMb: int): int {
    maxSizeMb * 1024 * 1024
  }

  /** The default limit is 2 MB, 2,097,152 bytes. */
  lemma DefaultLimitBytes()
    ensures MaxBytes(MaxDefaultMb) == 2097152
  {
  }

  predicate IsAcceptedType(mimeType: string) {
    mimeType == "image/jpeg" || mimeType == "image/png"
  }

  /** The decision of `handleFileChange`: no file, then the type check, then the size check. */
  function Decide(file: Option<FileInfo>, maxSizeMb: int): (v: Verdict)
    ensures v == NoFile <==> file.None?
    ensures v == WrongType <==> file.Some? && !IsAcceptedType(file.value.mimeType)
    ensures v == TooLarge <==>
              file.Some? && IsAcceptedType(file.value.mimeType) && file.value.size > MaxBytes(maxSizeMb)
    ensures v == Accepted <==>
              file.Some? && IsAcceptedType(file.value.mimeType) && file.value.size <= MaxBytes(maxSizeMb)
  {
    match file
    case None => NoFile
    case Some(f) =>
      if !IsAcceptedType(f.mimeType) then WrongType
      else if f.size > MaxBytes(maxSizeMb) then TooLarge
      else Accepted
  }

  /** The size message names the limit in megabytes. */
  function SizeError(maxSizeMb: int): (message: string)
    ensures |message| > 24 && message[21..|message| - 3] == IntToString(maxSizeMb)
  {
    var m := "Ukuran file maksimal " + IntToString(maxSizeMb) + "MB.";
    assert m[21..|m| - 3] == IntToString(maxSizeMb);
    m
  }

  /** An oversized file of the wrong type reports the type error: the type is checked first. */
  lemma TypeCheckedBeforeSize(f: FileInfo, maxSizeMb: int)
    requires !IsAcceptedType(f.mimeType) && f.size > MaxBytes(maxSizeMb)
    ensures Decide(Some(f), maxSizeMb) == WrongType
  {
  }

  /** A file of exactly the limit is accepted; one byte more is rejected. */
  lemma SizeLimitIsInclusive(mimeType: string, maxSizeMb: int)
    requires IsAcceptedType(mimeType)
    ensures Decide(Some(FileInfo(mimeType, MaxBytes(maxSizeMb))), maxSizeMb) == Accepted
    ensures Decide(Some(FileInfo(mimeType, MaxBytes(maxSizeMb) + 1)), maxSizeMb) == TooLarge
  {
  }

  /** A call of the `onChange` prop, if any. */
  datatype Emit = NoCall | Call(dataUrl: Option<string>)

  class Picker {
    const maxSizeMb: int
    var error: Option<string>
    var inputValue: string   // the file input's value
    var pendingReads: nat    // FileReader reads started whose `onload` has not run yet

    constructor (maxSizeMb: Option<int>)
      ensures this.maxSizeMb == maxSizeMb.GetOr(MaxDefaultMb)
      ensures error.None? && inputValue == "" && pendingReads == 0
    {
      this.maxSizeMb := maxSizeMb.GetOr(MaxDefaultMb);
      error := None;
      inputValue := "";
      pendingReads := 0;
    }

    /**
     * `handleFileChange` for the file the browser put into the input (its
     * path in `selected`): a rejection sets the error and empties the input,
     * acceptance starts one more read (earlier reads are not cancelled);
     * `onChange` is never called here.
     */
    method FileChange(file: Option<FileInfo>, selected: string)
      modifies this
      ensures Decide(file, maxSizeMb) == NoFile ==>
                error.None? && inputValue == selected && pendingReads == old(pendingReads)
      ensures Decide(file, maxSizeMb) == WrongType ==>
                error == Some(TypeError) && inputValue == "" && pendingReads == old(pendingReads)
      ensures Decide(file, maxSizeMb) == TooLarge ==>
                error == Some(SizeError(maxSizeMb)) && inputValue == "" && pendingReads == old(pendingReads)
      ensures Decide(file, maxSizeMb) == Accepted ==>
                error == old(error) && inputValue == selected && pendingReads == old(pendingReads) + 1
    {
      inputValue := selected;
      match Decide(file, maxSizeMb) {
        case NoFile =>
          error := None;
        case WrongType =>
          error := Some(TypeError);
          inputValue := "";
        case TooLarge =>
          error := Some(SizeError(maxSizeMb));
          inputValue := "";
        case Accepted =>
          pendingReads := pendingReads + 1;
      }
    }

    /** One pending reader's `onload`: hand the data URL to `onChange` and clear the error. */
    method ReaderLoad(result: Option<string>) returns (emit: Emit)
      requires pendingReads > 0
      modifies this
      ensures emit == Call(result)
      ensures error.None? && pendingReads == old(pendingReads) - 1 && inputValue == old(inputValue)
    {
      emit := Call(result);
      error := None;
      pendingReads := pendingReads - 1;
    }

    /** `handleRemove`: `onChange(null)`, clear the error, empty the input. */
    method Remove() returns (emit: Emit)
      modifies this
      ensures emit == Call(None)
      ensures error.None? && inputValue == "" && pendingReads == old(pendingReads)
    {
      emit := Call(None);
      error := None;
      inputValue := "";
    }
  }

  /** Choosing a file of the wrong type never reaches `onChange`: no read starts, so the prior value stays. */
  method RejectedFileKeepsValue(maxSizeMb: Option<int>, f: FileInfo, path: string) returns (pendingReads: nat, error: Option<string>)
    requires !IsAcceptedType(f.mimeType)
    ensures pendingReads == 0 && error == Some(TypeError)
  {
    var picker := new Picker(maxSizeMb);
    picker.FileChange(Some(f), path);
    pendingReads := picker.pendingReads;
    error := picker.error;
  }

  /** With the default limit, a 3 MB PNG is rejected for its size and a 2 MB JPEG is read. */
  method DefaultLimitExamples() returns (big: Verdict, fits: Verdict)
    ensures big == TooLarge && fits == Accepted
  {
    var picker := new Picker(None);
    big := Decide(Some(FileInfo("image/png", 3 * 1024 * 1024)), picker.maxSizeMb);
    fits := Decide(Some(FileInfo("image/jpeg", 2097152)), picker.maxSizeMb);
  }

  /**
   * Two accepted files picked in quick succession start two reads, and each
   * `onload` reaches `onChange`: the value ends as whichever read loads last.
   */
  method TwoQuickPicksBothEmit(f: FileInfo, g: FileInfo, first: Option<string>, second: Option<string>)
    returns (e1: Emit, e2: Emit)
    requires IsAcceptedType(f.mimeType) && f.size <= MaxBytes(MaxDefaultMb)
    requires IsAcceptedType(g.mimeType) && g.size <= MaxBytes(MaxDefaultMb)
    ensures e1 == Call(first) && e2 == Call(second)
  {
    var picker := new Picker(None);
    picker.FileChange(Some(f), "f");
    picker.FileChange(Some(g), "g");
    e1 := picker.ReaderLoad(first);
    e2 := picker.ReaderLoad(second);
  }
}
