/** The patch_file tool over a store of files. */
module PatchFile {
  import opened Prelude
  import opened Patch
  import opened PatchParse

  datatype Answer = HunksApplied(n: nat) | BadPatch | NotApplied(why: Result) | NoDirectory | WriteFailed

  class FileStore {
    var files: map<string, string>

    /** A write that faults leaves some part of the text behind. */
    method WriteFile(path: string, text: string, fault: Option<string>) returns (ok: bool)
      modifies this
      ensures ok == fault.None?
      ensures files == old(files)[path := if ok then text else fault.value]
    {
      files := files[path := if fault.None? then text else fault.value];
      ok := fault.None?;
    }

    /** Nothing is written unless the patch parses and every hunk applies. */
    method PatchFile(path: string, patch: string, canMakeDirs: bool, fault: Option<string>) returns (a: Answer)
      modifies this
      ensures var original, hunks := Lookup(old(files), path), ParseResult(patch);
              match a
              case HunksApplied(n) =>
                && hunks.Some? && n == |hunks.value| && ApplyResult(original, hunks.value).Patched?
                && files == old(files)[path := ApplyResult(original, hunks.value).text]
              case BadPatch => hunks.None? && files == old(files)
              case NotApplied(why) =>
                hunks.Some? && why == ApplyResult(original, hunks.value) && !why.Patched? && files == old(files)
              case NoDirectory => !canMakeDirs && files == old(files)
              case WriteFailed =>
                && fault.Some? && hunks.Some? && ApplyResult(original, hunks.value).Patched?
                && files == old(files)[path := fault.value]
    {
      var hunks := ParsePatch(patch);
      if hunks.None? {
        return BadPatch;
      }
      var original := if path in files then files[path] else "";
      var result := ApplyPatch(original, hunks.value);
      if !result.Patched? {
        return NotApplied(result);
      }
      if !canMakeDirs {
        return NoDirectory;
      }
      var ok := WriteFile(path, result.text, fault);
      if !ok {
        return WriteFailed;
      }
      return HunksApplied(|hunks.value|);
    }
  }
}
