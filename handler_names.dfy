/**
 * The handler name a file of a handler directory is registered under (src/index.ts,
 * findCommandHandlers, findComponentHandlers and findUiStates share the rule). Reading the
 * directory and loading the module are left to the caller.
 */
module HandlerNames {
  import opened Strings

  /** `file.split('.')[0]`: the file name up to its first dot. */
  function FirstSegment(file: string): (segment: string)
    ensures '.' !in segment
    ensures segment <= file
    ensures '.' !in file ==> segment == file
    ensures '.' in file ==> |segment| < |file| && file[|segment|] == '.'
  {
    file[..IndexOf(file, '.')]
  }

  /** `(prefix ? prefix + '_' : '') + segment`; an absent prefix is the empty string, falsy like it. */
  function Qualify(prefix: string, segment: string): (name: string)
    ensures prefix == "" ==> name == segment
    ensures prefix != "" ==> |name| == |prefix| + 1 + |segment| && name[..|prefix|] == prefix && name[|prefix|] == '_'
    ensures |segment| <= |name| && name[|name| - |segment|..] == segment
  {
    if prefix == "" then segment else prefix + "_" + segment
  }

  /** `s` with every trailing `_` removed. */
  function TrimTrailingUnderscores(s: string): (r: string)
    ensures r <= s
    ensures forall k | |r| <= k < |s| :: s[k] == '_'
    ensures !EndsWith(r, "_")
  {
    if EndsWith(s, "_") then TrimTrailingUnderscores(s[..|s| - 1]) else s
  }

  /** The three properties above pin the trimmed name down: it is the only such prefix. */
  lemma TrimmedIsUnique(s: string, r: string)
    requires r <= s
    requires forall k | |r| <= k < |s| :: s[k] == '_'
    requires !EndsWith(r, "_")
    ensures r == TrimTrailingUnderscores(s)
  {
  }

  /** The name a file under directory prefix `prefix` is registered under. */
  function DerivedName(prefix: string, file: string): string
  {
    TrimTrailingUnderscores(Qualify(prefix, FirstSegment(file)))
  }

  /** A dot-free prefix yields a dot-free name. */
  lemma DerivedNameIsDotFree(prefix: string, file: string)
    requires '.' !in prefix
    ensures '.' !in DerivedName(prefix, file)
  {
  }

  /** src/index.ts:97-98: build the qualified name, then strip trailing `_` one at a time. */
  method DeriveHandlerName(prefix: string, file: string) returns (fullName: string)
    ensures fullName == DerivedName(prefix, file)
    ensures !EndsWith(fullName, "_")
    ensures '.' !in prefix ==> '.' !in fullName
  {
    fullName := Qualify(prefix, FirstSegment(file));
    ghost var qualified := fullName;
    while EndsWith(fullName, "_")
      invariant TrimTrailingUnderscores(fullName) == TrimTrailingUnderscores(qualified)
      decreases |fullName|
    {
      fullName := fullName[..|fullName| - 1];
    }
    if '.' !in prefix {
      DerivedNameIsDotFree(prefix, file);
    }
  }

  /** What the directory walk does with one entry. */
  datatype EntryAction = Skip | RegisterHandler(name: string) | Descend(prefix: string)

  /**
   * src/index.ts:97-105: an entry with a dot is a module file, registered only when it ends in
   * `.js`; an entry without one is walked as a sub-directory, with the derived name as prefix.
   */
  method ClassifyEntry(prefix: string, file: string) returns (action: EntryAction)
    ensures '.' in file && !EndsWith(file, ".js") ==> action == Skip
    ensures '.' in file && EndsWith(file, ".js") ==> action == RegisterHandler(DerivedName(prefix, file))
    ensures '.' !in file ==> action == Descend(TrimTrailingUnderscores(Qualify(prefix, file)))
  {
    var fullName := DeriveHandlerName(prefix, file);
    if '.' in file {
      if !EndsWith(file, ".js") {
        return Skip;
      }
      action := RegisterHandler(fullName);
    } else {
      action := Descend(fullName);
    }
  }

  /** The prefix in force after descending, from the handler root, into the directories `dirs`. */
  function PrefixAfter(dirs: seq<string>): string
  {
    if dirs == [] then "" else DerivedName(PrefixAfter(dirs[..|dirs| - 1]), dirs[|dirs| - 1])
  }

  /** However deep the file sits, the name it is registered under has no dot and no trailing `_`. */
  lemma {:induction false} NestedNamesAreClean(dirs: seq<string>, file: string)
    ensures '.' !in DerivedName(PrefixAfter(dirs), file)
    ensures !EndsWith(DerivedName(PrefixAfter(dirs), file), "_")
  {
    PrefixIsDotFree(dirs);
    DerivedNameIsDotFree(PrefixAfter(dirs), file);
  }

  lemma {:induction false} PrefixIsDotFree(dirs: seq<string>)
    ensures '.' !in PrefixAfter(dirs)
  {
    if dirs != [] {
      PrefixIsDotFree(dirs[..|dirs| - 1]);
      DerivedNameIsDotFree(PrefixAfter(dirs[..|dirs| - 1]), dirs[|dirs| - 1]);
    }
  }
}
