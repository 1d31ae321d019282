/** The names of capture files (camera_local_client.cpp, the path generators of
    `take_photo` and `start_video`). */
module CaptureFiles {
  import opened Decimal
  import opened Wrappers

  /** storage path, '/', brand, the index padded to four digits, '.', extension. */
  function CapturePath(folder: string, brand: string, index: nat, extension: string): string {
    folder + "/" + brand + PadZeros(Digits(index), 4) + "." + extension
  }

  /** The extension of a photo: the IR camera always writes jpg. */
  function PhotoExtension(irPhoto: bool, photoFormat: string): string {
    if irPhoto then "jpg" else if photoFormat == "0" then "jpg" else "dng"
  }

  /** A path is the folder, a slash, the brand, the index in at least four digits, with no leading
      zero beyond the fourth, a dot, and the extension. */
  lemma PathIsPadded(folder: string, brand: string, index: nat, extension: string)
    ensures var digits := PadZeros(Digits(index), 4);
            && CapturePath(folder, brand, index, extension) == folder + "/" + brand + digits + "." + extension
            && AllDigits(digits) && Value(digits) == index
            && |digits| >= 4 && (|digits| > 4 ==> digits[0] != '0')
  {
    PaddingKeepsValue(Digits(index), 4);
    ValueOfDigits(index);
    NoLeadingZero(index);
  }

  lemma {:induction false} NoLeadingZero(n: nat)
    ensures |Digits(n)| > 1 ==> Digits(n)[0] != '0'
  {
    if n >= 10 {
      NoLeadingZero(n / 10);
      if n / 10 < 10 {
        assert Digits(n / 10) == [DigitChar(n / 10)];
        assert DigitValue('0') == 0;
      }
    }
  }

  /** Photos of the IR camera are jpg; those of the RGB camera are jpg in format "0" and dng otherwise. */
  lemma PhotoExtensions(photoFormat: string)
    ensures PhotoExtension(true, photoFormat) == "jpg"
    ensures PhotoExtension(false, photoFormat) == if photoFormat == "0" then "jpg" else "dng"
  {
  }

  /** Reads index and extension back from a path with a known folder and brand. */
  function ReadPath(folder: string, brand: string, path: string): Option<(nat, string)> {
    var head := folder + "/" + brand;
    if head <= path then
      var tail := path[|head|..];
      var digits := DigitPrefix(tail);
      if digits != [] && |digits| < |tail| && tail[|digits|] == '.'
      then Some((Value(digits), tail[|digits| + 1..]))
      else None
    else None
  }

  /** Every generated path gives its index and extension back, for indices of any width. */
  lemma ReadGeneratedPath(folder: string, brand: string, index: nat, extension: string)
    ensures ReadPath(folder, brand, CapturePath(folder, brand, index, extension)) == Some((index, extension))
  {
    var head := folder + "/" + brand;
    var digits := PadZeros(Digits(index), 4);
    var path := CapturePath(folder, brand, index, extension);
    assert path == head + (digits + ("." + extension));
    assert path[|head|..] == digits + ("." + extension);
    DigitPrefixOf(digits, "." + extension);
    PaddingKeepsValue(Digits(index), 4);
    ValueOfDigits(index);
    assert path[|head|..][|digits| + 1..] == extension;
  }

  /** With one folder and brand, two paths are equal exactly when index and extension are. */
  lemma CapturePathInjective(folder: string, brand: string, i: nat, e: string, j: nat, f: string)
    ensures CapturePath(folder, brand, i, e) == CapturePath(folder, brand, j, f) <==> i == j && e == f
  {
    ReadGeneratedPath(folder, brand, i, e);
    ReadGeneratedPath(folder, brand, j, f);
  }

  /** The RGB and the IR file of one Dual shot, whatever the photo format is. */
  lemma DualShotFilesDiffer(folder: string, brand: string, index: nat, photoFormat: string)
    ensures CapturePath(folder, brand, index, PhotoExtension(false, photoFormat))
         != CapturePath(folder, brand, index + 1, PhotoExtension(true, photoFormat))
  {
    CapturePathInjective(folder, brand, index, PhotoExtension(false, photoFormat),
                         index + 1, PhotoExtension(true, photoFormat));
  }
}
