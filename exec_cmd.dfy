/** The command shell of main.c: which handler `exec_cmd` runs and whether
    the shell goes on, and the argument parsing of `cmd_write`. */
module Shell {
  import opened CTypes
  import opened CStrings
  import opened DecimalText

  const INIT: seq<uint8> := [105, 110, 105, 116]  // "init"
  const CD: seq<uint8> := [99, 100, 32]  // "cd "
  const LS: seq<uint8> := [108, 115]  // "ls"
  const CAT: seq<uint8> := [99, 97, 116, 32]  // "cat "
  const DISK: seq<uint8> := [100, 105, 115, 107]  // "disk"
  const RM: seq<uint8> := [114, 109, 32]  // "rm "
  const TOUCH: seq<uint8> := [116, 111, 117, 99, 104, 32]  // "touch "
  const WRITE: seq<uint8> := [119, 114, 105, 116, 101, 32]  // "write "
  const MKDIR: seq<uint8> := [109, 107, 100, 105, 114, 32]  // "mkdir "
  const SYNC: seq<uint8> := [115, 121, 110, 99]  // "sync"
  const TEST: seq<uint8> := [116, 101, 115, 116]  // "test"

  /** The branch of `exec_cmd` a command line takes. */
  datatype Handler = Init | Cd | Ls | Cat | Disk | Rm | Touch | Write | Mkdir | Sync | Test | Unknown

  /** The `if` chain of `exec_cmd`: whole-word commands are compared with
      `strcmp`, commands that take an argument by the prefix up to and
      including the space, with `strncmp`. The `sync` branch exists only when
      the card driver is built with write buffering (`SD_RAW_WRITE_BUFFERING`). */
  function Dispatch(command: seq<uint8>, writeBuffering: bool): (h: Handler)
    requires NulFree(command)
    ensures h == Init <==> command == INIT
    ensures h == Cd <==> CD <= command
    ensures h == Ls <==> command == LS
    ensures h == Cat <==> CAT <= command
    ensures h == Disk <==> command == DISK
    ensures h == Rm <==> RM <= command
    ensures h == Touch <==> TOUCH <= command
    ensures h == Write <==> WRITE <= command
    ensures h == Mkdir <==> MKDIR <= command
    ensures h == Sync <==> writeBuffering && command == SYNC
    ensures h == Test <==> command == TEST
  {
    if StrCmp(command, INIT) == 0 then Init
    else if StrNCmp(command, CD, 3) == 0 then
      assert command[1] == CD[1];  // so "cat " cannot match as well
      Cd
    else if StrCmp(command, LS) == 0 then Ls
    else if StrNCmp(command, CAT, 4) == 0 then Cat
    else if StrCmp(command, DISK) == 0 then Disk
    else if StrNCmp(command, RM, 3) == 0 then Rm
    else if StrNCmp(command, TOUCH, 6) == 0 then Touch
    else if StrNCmp(command, WRITE, 6) == 0 then Write
    else if StrNCmp(command, MKDIR, 6) == 0 then Mkdir
    else if writeBuffering && StrCmp(command, SYNC) == 0 then Sync
    else if StrCmp(command, TEST) == 0 then Test
    else Unknown
  }

  /** The value of `exec_cmd`: 0 (stop) for exactly the command "init", 1 for
      every other line. */
  function ExecCmd(command: seq<uint8>, writeBuffering: bool): (continues: bool)
    requires NulFree(command)
    ensures !continues <==> command == INIT
  {
    Dispatch(command, writeBuffering) != Init
  }

  /** `cmd_write` splits its argument at the first space: the file name is
      what comes before it, the offset text what comes after it; an argument
      without a space is not split at all. */
  function SplitArgument(arg: seq<uint8>): (r: Option<(seq<uint8>, seq<uint8>)>)
    ensures r.None? <==> SPACE !in arg
    ensures r.Some? ==> SPACE !in r.value.0 && arg == r.value.0 + [SPACE] + r.value.1
  {
    var i := IndexOf(arg, SPACE);
    if i == |arg| then None else Some((arg[..i], arg[i + 1..]))
  }

  /** The position `cmd_write` seeks to: `strtolong` of the offset text, kept in an `int32_t`. */
  function WriteOffset(offsetText: seq<uint8>): (offset: int32)
    ensures offset % UINT32_MODULUS == ParsedValue(offsetText)
    ensures offset >= 0 <==> ParsedValue(offsetText) < 0x8000_0000
  {
    ToInt32(ParsedValue(offsetText))
  }

  /** Offsets below 2^31 are taken as written; from 2^31 to 2^32 - 1 they
      turn negative, and from 2^32 on they wrap around. */
  lemma WriteOffsetOfDecimal(n: nat)
    ensures n < 0x8000_0000 ==> WriteOffset(Decimal(n)) == n
    ensures 0x8000_0000 <= n < UINT32_MODULUS ==> WriteOffset(Decimal(n)) == n - UINT32_MODULUS
    ensures WriteOffset(Decimal(n)) % UINT32_MODULUS == n % UINT32_MODULUS
  {
    ParseDecimal(n);
    Int32OfResidue(ParsedValue(Decimal(n)), n);
  }

  lemma Int32OfResidue(v: uint32, n: nat)
    requires v == n % UINT32_MODULUS
    ensures n < 0x8000_0000 ==> ToInt32(v) == n
    ensures 0x8000_0000 <= n < UINT32_MODULUS ==> ToInt32(v) == n - UINT32_MODULUS
    ensures ToInt32(v) % UINT32_MODULUS == n % UINT32_MODULUS
  {
  }

  /** What `cmd_write` makes of its argument before it opens the file. */
  datatype WriteRequest =
    | NoArgument                               // "write " and nothing after it
    | NoOffset                                 // no space after the name: nothing happens
    | Request(name: seq<uint8>, offset: int32)

  /** The argument handling of `cmd_write(fs, dd, command)`, with the command
      line as a C string at the start of `command`. It skips the six bytes
      "write ", looks for the first space or the terminator, cuts the name off
      by writing a NUL over the space, and reads the offset after it with
      `strtolong`. */
  method CmdWriteArguments(command: array<uint8>) returns (req: WriteRequest)
    requires TerminatedAt(command[..], 0) && |StringAt(command[..], 0)| >= 6
    modifies command
    ensures var arg := old(StringAt(command[..], 0))[6..];
      if arg == [] then req == NoArgument && command[..] == old(command[..])
      else match SplitArgument(arg)
        case None => req == NoOffset && command[..] == old(command[..])
        case Some((name, offsetText)) =>
          && req == Request(name, WriteOffset(offsetText))
          && command[..] == old(command[..])[6 + |name| := NUL]
          && IsStringAt(command[..], 6, name)
          && IsStringAt(command[..], 7 + |name|, offsetText)
  {
    ghost var text := StringAt(command[..], 0);
    StringAtIsUnique(command[..], 0, text);
    if command[6] == NUL {
      return NoArgument;
    }
    var p := SkipName(command, text);
    if command[p] != SPACE {
      assert text[6..] == text[6..p];
      return NoOffset;
    }
    ghost var name, offsetText := text[6..p], text[p + 1..];
    assert SplitArgument(text[6..]) == Some((name, offsetText)) by {
      assert text[6..][..p - 6] == name && text[6..][p - 5..] == offsetText;
    }
    ghost var before := command[..];
    command[p] := NUL;
    ghost var after := command[..];
    assert after == before[p := NUL];
    assert IsStringAt(after, 6, name) by {
      assert after[6..p] == before[6..p];
    }
    assert IsStringAt(after, p + 1, offsetText) by {
      assert after[p + 1..|text|] == before[p + 1..|text|];
    }
    ParsedValueOfString(after, p + 1, offsetText);
    var offset := StrToLong(command[p + 1..]);
    assert offset == ParsedValue(offsetText);
    req := Request(command[6..p], ToInt32(offset));
  }

  /** The scan of `cmd_write` from the start of the name to the first space
      or, failing one, the terminator. */
  method SkipName(command: array<uint8>, ghost text: seq<uint8>) returns (p: nat)
    requires IsStringAt(command[..], 0, text) && 6 <= |text|
    ensures 6 <= p <= |text| && SPACE !in text[6..p]
    ensures p < |text| <==> command[p] == SPACE
    ensures p == 6 + IndexOf(text[6..], SPACE)
  {
    p := 6;
    while command[p] != SPACE && command[p] != NUL
      invariant 6 <= p <= |text|
      invariant SPACE !in text[6..p]
      decreases |text| - p
    {
      assert text[6..p + 1] == text[6..p] + [text[p]];
      p := p + 1;
    }
    IndexOfIsFirst(text[6..], SPACE, p - 6);
  }
}
