/**
 * The command builder of the stem splitter: from the folder the user named,
 * the audio files discovered in it and the separation choice the user typed,
 * it assembles the argument vector handed to the external Demucs separation
 * tool (stem_splitter.py, build_demucs_command).
 *
 * The argument vector always has the shape
 *   demucs --out <folder> [--two-stems vocals] <file_1> ... <file_n>
 * where the bracketed option appears exactly when the choice is "2".
 */
module StemSplitter {

  datatype Option<T> = None | Some(value: T)

  /** The fixed tokens of the command. */
  const PROGRAM: string := "demucs"
  const OUT_FLAG: string := "--out"
  const TWO_STEMS_FLAG: string := "--two-stems"
  const STEM_NAME: string := "vocals"

  /** The two choices the menu offers. */
  const FOUR_STEMS_CHOICE: string := "1"
  const TWO_STEMS_CHOICE: string := "2"

  /** The separation mode a choice selects; every unrecognised choice selects the default. */
  datatype Mode = FourStems | TwoStems

  /** What a command encodes: output folder, mode and input files, in order. */
  datatype Request = Request(folder: string, mode: Mode, audioFiles: seq<string>)

  function ModeOf(choice: string): Mode
  {
    if choice == TWO_STEMS_CHOICE then TwoStems else FourStems
  }

  /** Whether the builder prints its "invalid choice" warning for this choice. */
  predicate Warns(choice: string)
  {
    choice != FOUR_STEMS_CHOICE && choice != TWO_STEMS_CHOICE
  }

  /** The extra option tokens a mode adds after the output folder. */
  function ModeOptions(mode: Mode): seq<string>
  {
    match mode
    case FourStems => []
    case TwoStems => [TWO_STEMS_FLAG, STEM_NAME]
  }

  /**
   * The command for a folder, a file list and a mode, as a closed form: the
   * program, the output flag and the folder come first whatever the inputs,
   * the mode's option tokens follow, and the files form the rest of the
   * vector unchanged and in their order, none dropped or repeated.
   */
  function Command(folder: string, audioFiles: seq<string>, mode: Mode): (cmd: seq<string>)
    ensures |cmd| == 3 + |ModeOptions(mode)| + |audioFiles|
    ensures cmd[..3] == [PROGRAM, OUT_FLAG, folder]
    ensures cmd[3..3 + |ModeOptions(mode)|] == ModeOptions(mode)
    ensures cmd[3 + |ModeOptions(mode)|..] == audioFiles
    ensures multiset(cmd[3 + |ModeOptions(mode)|..]) == multiset(audioFiles)
  {
    [PROGRAM, OUT_FLAG, folder] + ModeOptions(mode) + audioFiles
  }

  /**
   * Python's list.extend on the local command: appends the items one at a
   * time, in their order.
   */
  method Extend(tokens: seq<string>, items: seq<string>) returns (extended: seq<string>)
    ensures extended == tokens + items
  {
    extended := tokens;
    for i := 0 to |items|
      invariant extended == tokens + items[..i]
    {
      extended := extended + [items[i]];
    }
  }

  /**
   * Builds the command the way the source does: the three-token prefix, then
   * the stem option when the choice is exactly "2", then the files. The
   * `warned` flag stands for the warning printed when the choice is neither
   * "1" nor "2". The source returns a new list, so the caller's file list is
   * only read.
   */
  method BuildDemucsCommand(folder: string, audioFiles: seq<string>, choice: string)
    returns (cmd: seq<string>, warned: bool)
    ensures choice == TWO_STEMS_CHOICE ==>
              cmd == [PROGRAM, OUT_FLAG, folder, TWO_STEMS_FLAG, STEM_NAME] + audioFiles
    ensures choice != TWO_STEMS_CHOICE ==> cmd == [PROGRAM, OUT_FLAG, folder] + audioFiles
    ensures |cmd| == 3 + |audioFiles| + (if choice == TWO_STEMS_CHOICE then 2 else 0)
    ensures cmd == Command(folder, audioFiles, ModeOf(choice))
    ensures warned <==> choice != FOUR_STEMS_CHOICE && choice != TWO_STEMS_CHOICE
  {
    cmd := [PROGRAM, OUT_FLAG, folder];
    warned := false;
    if choice == TWO_STEMS_CHOICE {
      cmd := Extend(cmd, [TWO_STEMS_FLAG, STEM_NAME]);
    } else if choice != FOUR_STEMS_CHOICE {
      warned := true;
    }
    cmd := Extend(cmd, audioFiles);
  }

  // ---------------------------------------------------------------------
  // Shape of the command


  /**
   * In two-stems mode the tokens "--two-stems" and "vocals" stand right after
   * the output folder and before any file; in the default mode the first
   * file (if any) follows the folder directly.
   */
  lemma StemOptionPlacement(folder: string, audioFiles: seq<string>, mode: Mode)
    ensures var cmd := Command(folder, audioFiles, mode);
            (mode == TwoStems ==> cmd[3] == TWO_STEMS_FLAG && cmd[4] == STEM_NAME && cmd[5..] == audioFiles) &&
            (mode == FourStems ==> cmd[3..] == audioFiles)
  {
  }

  /** "1" and every unrecognised choice, the empty one included, give the same command. */
  lemma DefaultFallback(folder: string, audioFiles: seq<string>, choice: string)
    requires choice != TWO_STEMS_CHOICE
    ensures Command(folder, audioFiles, ModeOf(choice))
            == Command(folder, audioFiles, ModeOf(FOUR_STEMS_CHOICE))
    ensures Command(folder, audioFiles, ModeOf(choice)) == [PROGRAM, OUT_FLAG, folder] + audioFiles
  {
  }

  /** The warning is given exactly for the choices that fall back to the default without being "1". */
  lemma WarningExactlyOnFallback(choice: string)
    ensures Warns(choice) <==> (ModeOf(choice) == FourStems && choice != FOUR_STEMS_CHOICE)
  {
  }

  /**
   * Choices are compared exactly, without trimming: "2" padded with
   * whitespace on either side selects the default mode and is warned about.
   */
  lemma NoTrimmingOfChoice(pad: string)
    requires pad != []
    ensures ModeOf(pad + TWO_STEMS_CHOICE) == FourStems && Warns(pad + TWO_STEMS_CHOICE)
    ensures ModeOf(TWO_STEMS_CHOICE + pad) == FourStems && Warns(TWO_STEMS_CHOICE + pad)
  {
  }

  // ---------------------------------------------------------------------
  // Reading a command back

  /** Whether a file list begins with the two tokens of the stem option. */
  predicate StartsWithStemOption(audioFiles: seq<string>)
  {
    |audioFiles| >= 2 && audioFiles[0] == TWO_STEMS_FLAG && audioFiles[1] == STEM_NAME
  }

  /**
   * Recovers the request from a command in the builder's shape, or None for
   * any other vector. Every vector it accepts is exactly the command of the
   * request it yields.
   */
  function ParseCommand(cmd: seq<string>): (r: Option<Request>)
    ensures r.Some? ==> Command(r.value.folder, r.value.audioFiles, r.value.mode) == cmd
  {
    if |cmd| < 3 || cmd[0] != PROGRAM || cmd[1] != OUT_FLAG then None
    else if |cmd| >= 5 && cmd[3] == TWO_STEMS_FLAG && cmd[4] == STEM_NAME then
      Some(Request(cmd[2], TwoStems, cmd[5..]))
    else
      Some(Request(cmd[2], FourStems, cmd[3..]))
  }

  /**
   * Reading back a built command gives the request it was built from, unless
   * a default-mode file list itself begins with the stem-option tokens.
   */
  lemma ParseBuiltCommand(folder: string, audioFiles: seq<string>, mode: Mode)
    requires mode == TwoStems || !StartsWithStemOption(audioFiles)
    ensures ParseCommand(Command(folder, audioFiles, mode)) == Some(Request(folder, mode, audioFiles))
  {
  }

  /** A vector the parser rejects is the command of no request at all. */
  lemma ParseRejectsOnlyForeignVectors(cmd: seq<string>, folder: string, audioFiles: seq<string>, mode: Mode)
    requires ParseCommand(cmd).None?
    ensures Command(folder, audioFiles, mode) != cmd
  {
  }

  /**
   * Without that condition the vector is ambiguous: a default-mode list whose
   * first two files are "--two-stems" and "vocals" builds the same command as
   * two-stems mode over the remaining files.
   */
  lemma DefaultModeCanMimicStemOption(folder: string, rest: seq<string>)
    ensures Command(folder, [TWO_STEMS_FLAG, STEM_NAME] + rest, FourStems)
            == Command(folder, rest, TwoStems)
  {
  }

  /** Commands over file lists of one length determine folder, mode and files. */
  lemma CommandInjective(f1: string, fs1: seq<string>, m1: Mode, f2: string, fs2: seq<string>, m2: Mode)
    requires |fs1| == |fs2|
    requires Command(f1, fs1, m1) == Command(f2, fs2, m2)
    ensures f1 == f2 && fs1 == fs2 && m1 == m2
  {
  }

  /** The example run: folder "/music" with two files and choice "2". */
  lemma TwoStemsExample()
    ensures Command("/music", ["/music/a.mp3", "/music/b.wav"], ModeOf("2"))
            == ["demucs", "--out", "/music", "--two-stems", "vocals", "/music/a.mp3", "/music/b.wav"]
    ensures !Warns("2")
  {
  }
}
