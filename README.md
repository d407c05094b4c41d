# Stem splitter: the Demucs command builder

The stem splitter is a small command-line wrapper around the Demucs audio
source-separation tool. It asks for a folder, collects the audio files in it,
asks whether to split into the default four stems (drums, bass, vocals, other)
or into two stems (vocals and accompaniment), and runs Demucs on the files.
Its only decision logic is `build_demucs_command`. That function turns the
folder, the file list and the typed choice into the argument vector

    demucs --out <folder> [--two-stems vocals] <file_1> ... <file_n>

where the bracketed option appears exactly when the choice is `"2"`. Any
other choice, `"1"` included, gives the default four-stem shape. For every
choice other than `"1"` and `"2"` the function also prints a warning.

This project models that function in Dafny (`stem_splitter.dfy`, module
`StemSplitter`):

- `BuildDemucsCommand` is the source's procedure. It starts a local sequence
  with the three-token prefix and extends it with the stem option on the
  `"2"` branch, then with the files. The warning print becomes the returned
  flag `warned`.
- `Extend` models Python's `list.extend`: it appends the items one by one, in
  order.
- `Command` is the closed-form specification of the vector. `Mode`
  (`FourStems`, `TwoStems`) names the default explicitly. `ModeOf` and
  `Warns` give the mode a choice selects and whether it is warned about.
- `ParseCommand` is the inverse of `Command`: it reads a vector back into a
  request `(folder, mode, files)`. The round trip in each direction is proved.
  A default-mode file list whose first two entries are literally
  `--two-stems` and `vocals` builds the same vector as two-stems mode over the
  remaining files (`DefaultModeCanMimicStemOption`). The round trip from a
  request therefore excludes that case. In the program the files come from
  `glob` patterns joined to the folder, so every path ends in an audio
  extension and the case cannot arise.

Dafny sequences are values. That the caller's file list is not modified, and
that the command is a new list, therefore holds by construction. It is not
stated as a contract.

## Model

| member | source | states |
|---|---|---|
| `StemSplitter.BuildDemucsCommand` | stem_splitter.py:39-47 | For choice `"2"` the result is exactly `demucs --out folder --two-stems vocals` followed by the files; for every other choice it is exactly `demucs --out folder` followed by the files; the length is 3 + number of files + 2 on the `"2"` branch; the result equals `Command` of the selected mode; `warned` is true exactly when the choice is neither `"1"` nor `"2"` |
| `StemSplitter.Extend` | stem_splitter.py:46 | Extending a token list by items gives the old tokens followed by all the items, in their order, none dropped or repeated |
| `StemSplitter.Command` | stem_splitter.py:41-46 | The first three tokens are `demucs`, `--out` and the folder, whatever the inputs; the mode's option tokens follow; the rest of the vector is the file list unchanged (same order, same multiset); the length is 3 + options + files |
| `StemSplitter.StemOptionPlacement` | stem_splitter.py:41-43 | In two-stems mode `--two-stems` and `vocals` stand at positions 3 and 4, right after the folder and before every file; in the default mode the files start right after the folder |
| `StemSplitter.DefaultFallback` | stem_splitter.py:42-46 | Any choice other than `"2"`, including `"1"`, the empty string and unrecognised strings, gives the same command, `demucs --out folder` followed by the files |
| `StemSplitter.WarningExactlyOnFallback` | stem_splitter.py:42-45 | The warning is given exactly for choices that fall back to the default mode without being `"1"` |
| `StemSplitter.NoTrimmingOfChoice` | stem_splitter.py:42-44 | Choices are compared exactly: `"2"` with any non-empty padding before or after it selects the default mode and is warned about |
| `StemSplitter.ParseCommand` | stem_splitter.py:41-46 | Every vector the inverse accepts is exactly the command of the request it returns |
| `StemSplitter.ParseBuiltCommand` | stem_splitter.py:41-46 | Reading back a built command returns its folder, mode and file list, unless a default-mode file list itself begins with the two stem-option tokens |
| `StemSplitter.ParseRejectsOnlyForeignVectors` | stem_splitter.py:41 | A vector the inverse rejects is the command of no folder, file list and mode |
| `StemSplitter.DefaultModeCanMimicStemOption` | stem_splitter.py:43-46 | A default-mode file list that begins with `--two-stems`, `vocals` builds the same vector as two-stems mode over the remaining files, so the round-trip condition cannot be dropped |
| `StemSplitter.CommandInjective` | stem_splitter.py:41-46 | Two commands over file lists of equal length are equal only if their folders, modes and file lists are equal |
| `StemSplitter.TwoStemsExample` | stem_splitter.py:41-46 | Folder `/music` with files `/music/a.mp3`, `/music/b.wav` and choice `"2"` gives `demucs --out /music --two-stems vocals /music/a.mp3 /music/b.wav`, with no warning |

## Left out

- `get_audio_files` (stem_splitter.py:21-27): a wrapper over `glob.glob`. Which files match, including hidden files and case sensitivity, and in what order, is decided by the library and the file system. The model takes the file list as a parameter.
- `get_user_choice` (stem_splitter.py:30-36): prints the menu and reads a line from standard input. The stripping of whitespace happens there, so the builder sees the choice as a parameter, already stripped.
- `run_demucs` (stem_splitter.py:50-58): runs the external process, handles its failure and exits. The space-joined command it prints is for display only.
- `main` (stem_splitter.py:61-78): prompts, the directory check, the exits on an invalid folder or an empty file list, and the completion messages. All of it is I/O and process control.
- The text of the warning (stem_splitter.py:45): only the fact that it is printed is modelled, as the flag `warned`.
- `BuildDemucsCommand`: does not state that its input file list is unchanged, because Dafny sequences are values and cannot be mutated. Python list aliasing is not modelled.
