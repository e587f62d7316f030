# sd_reader shell helpers in Dafny

This project models the text and lookup helpers of the serial command shell in
`sd_reader/main.c`, firmware that reads commands from a UART and works on a
FAT file system on an SD card, and proves what they compute:

- `strtolong`: a decimal parser that accumulates in 32 unsigned bits.
- `read_line`: a bounded line reader. It drains the receive queue into a
  zero-filled buffer and stops at a newline, at a full buffer or after a
  poll timeout.
- `find_file_in_dir`: a first-match search of an open directory by exact
  long name. It rewinds the directory on success.
- `cmd_write`'s argument handling: it splits the argument at the first space
  and converts the offset to `int32_t`.
- The loop in `main` that picks the first free name among "dump0" … "dump99".
- `exec_cmd`'s dispatch: which handler a command line reaches, and whether
  the shell goes on.

Bytes are `uint8` (an integer subset type) and C strings are their NUL-free
texts. Where the source writes into memory in place (the NUL that `cmd_write`
stores over the space, and the `memset` and stores of `read_line`), memory is
an `array<uint8>`. The receive ring buffer is the class `SerialLine.RxQueue`
over a sequence; its predicate `IsEmpty` is `RingBuffer_IsEmpty`
(main.c:791). The function `SerialLine.Returned` is the return rule of
`read_line`: 0 on a timeout (main.c:793), otherwise `read_length`, the number
of bytes stored (main.c:817). An open directory is the class `Directory.DirCursor`: a
sequence of entries plus a cursor.

Modules, one per file:

- `CTypes` (`ctypes.dfy`): byte and 32-bit types, and the two's-complement
  cast to `int32_t`.
- `CStrings` (`cstrings.dfy`): C strings in memory, `strcmp` and `strncmp`.
- `DecimalText` (`strtolong.dfy`): `strtolong`, and `itoa` as used for the
  dump names. The source never passes `itoa`'s output to `strtolong`; that
  `strtolong` reads back what `itoa` writes is a property this model proves.
- `SerialLine` (`read_line.dfy`): `read_line`.
- `Directory` (`find_file.dfy`): the directory cursor and `find_file_in_dir`.
- `Shell` (`exec_cmd.dfy`): `exec_cmd` and `cmd_write`.
- `DumpFile` (`dump_name.dfy`): the dump-name loop of `main`.

`fat_read_dir` is in `fat.c`, which is not part of this model. It is modelled
as returning the next entry, or reporting failure and rewinding once the
listing is exhausted. This is an inference from main.c: `cmd_ls`
(main.c:555), which lists until failure and never calls `fat_reset_dir`,
works only if `fat_read_dir` rewinds at the end.

`exec_cmd` has no live caller in main.c: its call and the `if(!result) break;`
after it are commented out (main.c:426-428). What `Shell.ExecCmd` states about
its return value therefore describes a function nothing calls at present.
`cmd_write` is reached only through `exec_cmd`, and so is its own
`read_line` call (main.c:694); the live `read_line` call is at main.c:387.

## Model

| member | source | states |
|---|---|---|
| DecimalText.StrToLong | sd_reader/main.c:820-827 | The loop returns `ParsedValue(str)`: the value of the leading run of ASCII digits, reduced modulo 2^32 after every `l * 10 + d` step. |
| DecimalText.ParsedValue | sd_reader/main.c:823 | A text that is empty or starts with a non-digit (a space, a sign) parses to 0. |
| DecimalText.DigitRun | sd_reader/main.c:823 | The digit run is maximal: all its bytes are digits, and the byte after it is not. |
| DecimalText.ParsedValueIgnoresTail | sd_reader/main.c:822-826 | Everything after the first non-digit is ignored. |
| DecimalText.ParsedValueOfString | sd_reader/main.c:822-826 | Parsing from the start of a C string in memory sees only that string's text, not the bytes after its terminator. |
| DecimalText.Decimal | sd_reader/main.c:354 | `itoa(i, buf, 10)` gives at least one digit, no leading zero and no NUL. |
| DecimalText.ParseDecimal | sd_reader/main.c:820-827 | `strtolong` of the decimal rendering of `n` is `n mod 2^32` (a round trip, with wrap-around). |
| DecimalText.DecimalInjective | sd_reader/main.c:354 | Different numbers have different decimal renderings. |
| SerialLine.RxQueue.Remove | sd_reader/main.c:794 | `RingBuffer_Remove` returns the oldest byte and drops it from the queue. |
| SerialLine.Poll | sd_reader/main.c:789-793 | The counted poll loop reports a byte available exactly when the queue is not empty; it reports a timeout exactly when the queue is empty. |
| SerialLine.Memset | sd_reader/main.c:783 | `memset` zeroes the first `length` bytes and leaves the rest of the array alone. |
| SerialLine.StoreByte | sd_reader/main.c:805-813 | One store turns "stored bytes then zeros" into "stored bytes, `c`, then one zero fewer", and changes nothing beyond the buffer. |
| SerialLine.FillLine | sd_reader/main.c:786-815 | The loop stores the queue's bytes up to the first newline, or up to `length - 1` bytes, or until the queue runs dry. Its result says which of the three happened. No newline is stored. The queue loses exactly the bytes read, plus the newline when there is one. |
| SerialLine.ReadLine | sd_reader/main.c:781-818 | With `r = ReadLineSpec(queue, buffer_length - 1)`: the return value is `Returned(r)`, the queue keeps what follows `r.consumed`, the buffer holds `r.stored` and then zeros up to `buffer_length`, and bytes beyond it are unchanged. |
| SerialLine.ReadLineSpec | sd_reader/main.c:786-815 | The stored bytes are a newline-free prefix of the queue, no longer than the capacity. A newline ending consumes one byte more, and that byte is the newline. A timeout stores the whole queue, which was shorter than the capacity. |
| SerialLine.LineEndsAtNewline | sd_reader/main.c:805-809 | A newline at position `j` below the capacity ends the line: `j` bytes are stored and `j + 1` are consumed. |
| SerialLine.LineFillsBuffer | sd_reader/main.c:811-814 | Without a newline among the first `capacity` bytes, exactly `capacity` bytes are stored and consumed, and the rest of the queue stays. |
| SerialLine.LineTimesOut | sd_reader/main.c:789-793 | A queue that runs dry early is consumed entirely and stored, yet 0 is returned. |
| SerialLine.FullLineLeavesNewline | sd_reader/main.c:786-815 | A line of exactly `buffer_length - 1` bytes fills the buffer and leaves its newline queued, so the next call reads the empty line. |
| SerialLine.LineIsTerminated | sd_reader/main.c:783-817 | The returned length is at most `buffer_length - 1`. Off a timeout, every byte from the returned length to the end of the buffer is 0. |
| Directory.DirCursor.constructor | sd_reader/main.c:322 | `fat_open_dir` gives a handle whose cursor is at the first entry, over the directory's entries. |
| Directory.DirCursor.ReadDir | sd_reader/main.c:831 | `fat_read_dir` yields the entry at the cursor and advances it. At the end of the listing it fails and rewinds. |
| Directory.DirCursor.Reset | sd_reader/main.c:835 | `fat_reset_dir` moves the cursor to the first entry. |
| Directory.FirstMatch | sd_reader/main.c:831-840 | The first index at or after the cursor whose long name equals `name`. It is none exactly when no entry from there on has that name. |
| Directory.FindFileInDir | sd_reader/main.c:829-841 | Success means some entry from the cursor onward is named exactly `name`. `dir_entry` is then the first such entry. The cursor is back at the start either way. |
| Directory.FirstMatchFromStart | sd_reader/main.c:829-841 | From the first entry, the search succeeds exactly when the directory holds the name. |
| CStrings.StrCmp | sd_reader/main.c:833 | `strcmp` of two texts is 0 exactly when they are equal. |
| CStrings.StrNCmp | sd_reader/main.c:474 | `strncmp` with the length of the prefix is 0 exactly when the text starts with the prefix. |
| CStrings.IndexOf | sd_reader/main.c:655-657 | The position of the first occurrence of a byte, or the length when it does not occur. |
| CStrings.StringAt | sd_reader/main.c:651-653 | The text of the C string at a position ends at the first NUL. |
| CStrings.StringAtIsUnique | sd_reader/main.c:651-662 | A text is the string at a position exactly when memory holds it there followed by a NUL. |
| Shell.Dispatch | sd_reader/main.c:468-523 | Each branch is reached exactly when the command line equals its word ("init", "ls", "disk", "sync" when write buffering is built in, "test") or starts with its prefix ("cd ", "cat ", "rm ", "touch ", "write ", "mkdir "). |
| Shell.ExecCmd | sd_reader/main.c:468-525 | `exec_cmd` returns 0 exactly for the command "init", and 1 for everything else. |
| Shell.SplitArgument | sd_reader/main.c:655-662 | No split when the argument has no space. Otherwise the name is the text before the first space and the offset text is everything after it. |
| Shell.SkipName | sd_reader/main.c:655-657 | The scan stops at the first space, or at the terminator when there is no space. |
| Shell.CmdWriteArguments | sd_reader/main.c:649-674 | An empty argument stops the command, and so does an argument without a space; neither changes memory. Otherwise only the first space becomes a NUL, the name and the offset text become the two C strings around it, and the offset is `strtolong` of the latter cast to `int32_t`. |
| Shell.WriteOffset | sd_reader/main.c:674 | `int32_t offset = strtolong(offset_value)`: the offset agrees with the parsed value modulo 2^32, and is non-negative exactly when the parsed value is below 2^31. |
| Shell.WriteOffsetOfDecimal | sd_reader/main.c:674 | Offsets below 2^31 are kept. Offsets from 2^31 to 2^32 - 1 become negative (`n - 2^32`). Larger ones agree with `n` modulo 2^32. |
| CTypes.ToInt32 | sd_reader/main.c:674 | The cast to `int32_t` preserves the value modulo 2^32 and is non-negative exactly below 2^31. |
| DumpFile.DumpName | sd_reader/main.c:353-354 | The name has no NUL inside, so it is a whole C string; it is `DUMP + Decimal(i)` by definition, and `DumpNameInjective` carries the distinctness. |
| DumpFile.DumpNameInjective | sd_reader/main.c:353-354 | Different numbers give different file names. |
| DumpFile.FreeDumpIndex | sd_reader/main.c:351-361 | The least `i` below 100 whose name is not taken; none exactly when all hundred names are taken. |
| DumpFile.ChooseDumpName | sd_reader/main.c:351-361 | The loop finds a name exactly when `FreeDumpIndex` of the directory's names exists, and then the name is `DumpName` of it. The directory is left rewound. |
| DumpFile.DumpNamesCount | sd_reader/main.c:351-354 | There are exactly `k` names among the first `k` candidates, so the hundred candidates are pairwise different. |
| DumpFile.FreeDumpIndexExists | sd_reader/main.c:351-361 | Fewer than 100 existing names always leave a dump name free. |
| DumpFile.FewEntriesLeaveDumpName | sd_reader/main.c:351-361 | A directory of fewer than 100 entries always yields a dump name. |

## Left out

- UART output, `printf` redirection, the hex dump of `cmd_cat` and the text of `print_disk_info`: output only.
- The `USART1_RX_vect` interrupt handler (main.c:894-904) that fills the receive queue. `RxQueue` starts with the bytes already received and only shrinks, so nothing arrives during a call of `read_line`. The ring buffer's own code (capacity, dropping bytes when full) is not part of this model.
- SerialLine.Poll: polls do not take time and no byte can arrive during them, so an empty queue always times out after 1002 polls.
- The watchdog reset, clock prescaler, sleep mode and `_delay_ms`: hardware and timing.
- The FAT, partition and card calls (`fat_open`, `fat_open_dir`, `fat_create_file`, `fat_write_file`, `fat_seek_file`, `partition_open`, `sd_raw_init`, `sd_raw_sync` and the rest): `fat.c`, `partition.c` and `sd_raw.c` are not part of this model. The directory handle is the abstract `DirCursor`. `cmd_write` is modelled only up to the offset it hands to `fat_seek_file`.
- The host handshake in `main` (the 't'/'s'/'r'/'a'/'m' exchange) and `wait_for_answer`: timed serial I/O.
- The other `cmd_*` handlers, `make_file`, `open_file_in_dir` and `print_disk_info`. `Shell.Dispatch` names the handler a line reaches; it does not run the handler.
- Shell.Dispatch: the compile-time flag `SD_RAW_WRITE_BUFFERING` is the parameter `writeBuffering`.
- DumpFile.ChooseDumpName: `filename` is a value built by `DumpName`, not `strcpy`/`strcat` into a 10-byte array (the longest name, "dump99", fits). The method requires the directory cursor at the first entry, which is where `main` leaves it after `fat_open_dir` (main.c:322). The loop is also re-entered with the same handle through the `continue` at main.c:367 after `make_file` (`fat_create_file`) fails; there the precondition rests on `fat_create_file` leaving the handle rewound, and `fat.c` is not part of this model.
- SerialLine.ReadLine: on a timeout it returns 0 while the bytes already stored stay in the buffer. The terminator lemma `LineIsTerminated` therefore covers only the other two endings.
- SerialLine.ReadLine: `buffer_length` of 0 gives a capacity of -1, as the C promotion to `int` does. Nothing is stored and 0 is returned.
