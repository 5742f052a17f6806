/** The document drop zone: a file chosen by dragging or browsing is checked
    for its type and size, and only an accepted file is handed on. */
module DocumentUpload {
  import opened Shared

  datatype SelectedFile = SelectedFile(name: string, mimeType: string, size: nat)

  const DefaultMaxSizeMB: nat := 50
  const AllowedTypes: seq<string> := ["application/pdf", "image/png", "image/jpeg", "image/jpg"]
  const WrongTypeMessage: string := "Please upload a PDF or image file (PNG, JPG)"

  function MaxBytes(maxSizeMB: nat): nat {
    maxSizeMB * 1024 * 1024
  }

  function TooLargeMessage(maxSizeMB: nat): string {
    "File size must be less than " + NatToString(maxSizeMB) + "MB"
  }

  /** The error a file is rejected with, if any: the type is checked first,
      then the size, and a file of exactly the limit is accepted. */
  function FileError(file: SelectedFile, maxSizeMB: nat): (r: Option<string>)
    ensures r.None? <==> file.mimeType in AllowedTypes && file.size <= MaxBytes(maxSizeMB)
    ensures file.mimeType !in AllowedTypes ==> r == Some(WrongTypeMessage)
    ensures file.mimeType in AllowedTypes && file.size > MaxBytes(maxSizeMB) ==> r == Some(TooLargeMessage(maxSizeMB))
  {
    if file.mimeType !in AllowedTypes then Some(WrongTypeMessage)
    else if file.size > MaxBytes(maxSizeMB) then Some(TooLargeMessage(maxSizeMB))
    else None
  }

  /** With the default limit a file of 52,428,800 bytes is accepted and one
      byte more is not; a file of the wrong type is refused whatever its size. */
  lemma DefaultLimit(name: string, mimeType: string)
    ensures mimeType in AllowedTypes ==> FileError(SelectedFile(name, mimeType, 52428800), DefaultMaxSizeMB).None?
    ensures mimeType in AllowedTypes ==> FileError(SelectedFile(name, mimeType, 52428801), DefaultMaxSizeMB) == Some("File size must be less than 50MB")
    ensures mimeType !in AllowedTypes ==> FileError(SelectedFile(name, mimeType, 0), DefaultMaxSizeMB) == Some(WrongTypeMessage)
  {
    assert NatToString(50) == "50" by {
      assert DigitChar(5) == '5' && DigitChar(0) == '0';
      assert NatToString(5) == [DigitChar(5)];
      assert NatToString(50) == NatToString(5) + [DigitChar(0)];
    }
    assert TooLargeMessage(50) == "File size must be less than 50MB";
  }

  class DropZone {
    const maxSizeMB: nat
    var isDragging: bool
    var error: Option<string>

    constructor (maxSizeMB: nat)
      ensures this.maxSizeMB == maxSizeMB && !isDragging && error.None?
    {
      this.maxSizeMB := maxSizeMB;
      isDragging := false;
      error := None;
    }

    /** Checks a file; the shown error is replaced by this file's error, or
        cleared when it is accepted. */
    method ValidateFile(file: SelectedFile) returns (ok: bool)
      modifies this
      ensures error == FileError(file, maxSizeMB)
      ensures ok <==> error.None?
      ensures isDragging == old(isDragging)
    {
      error := None;
      if file.mimeType !in AllowedTypes {
        error := Some(WrongTypeMessage);
        return false;
      }
      if file.size > MaxBytes(maxSizeMB) {
        error := Some(TooLargeMessage(maxSizeMB));
        return false;
      }
      return true;
    }

    /** Hands the file on (`selected`, the call to `onFileSelected`) exactly
        when it is accepted. */
    method HandleFile(file: SelectedFile) returns (selected: Option<SelectedFile>)
      modifies this
      ensures error == FileError(file, maxSizeMB)
      ensures selected == (if error.None? then Some(file) else None)
      ensures isDragging == old(isDragging)
    {
      var ok := ValidateFile(file);
      selected := if ok then Some(file) else None;
    }

    /** A drop ends the drag and handles the first dropped file; a drop of
        nothing changes nothing else. */
    method HandleDrop(files: seq<SelectedFile>) returns (selected: Option<SelectedFile>)
      modifies this
      ensures !isDragging
      ensures files == [] ==> selected.None? && error == old(error)
      ensures files != [] ==> error == FileError(files[0], maxSizeMB)
                              && selected == (if error.None? then Some(files[0]) else None)
    {
      isDragging := false;
      selected := None;
      if |files| > 0 {
        selected := HandleFile(files[0]);
      }
    }

    method HandleDragOver()
      modifies this
      ensures isDragging && error == old(error)
    {
      isDragging := true;
    }

    method HandleDragLeave()
      modifies this
      ensures !isDragging && error == old(error)
    {
      isDragging := false;
    }

    /** Browsing handles the first chosen file, if any. */
    method HandleInputChange(files: seq<SelectedFile>) returns (selected: Option<SelectedFile>)
      modifies this
      ensures isDragging == old(isDragging)
      ensures files == [] ==> selected.None? && error == old(error)
      ensures files != [] ==> error == FileError(files[0], maxSizeMB)
                              && selected == (if error.None? then Some(files[0]) else None)
    {
      selected := None;
      if |files| > 0 {
        selected := HandleFile(files[0]);
      }
    }
  }
}
