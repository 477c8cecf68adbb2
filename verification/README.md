# File transfer in DayDream BBS: a Dafny model

DayDream BBS moves files with two complete protocol stacks, HYDRA (`hydracom/`) and
ZMODEM (`ddz/`).  This project models both, from the bytes on the line up to whole
sessions of two peers over unreliable lines, and proves what they are for: the file
that arrives is the file that was sent.  Three smaller cores are modelled beside them:
the MD5 digest, the wildcard matcher with the download credit that uses it, and the
FTP server's ASCII translation.

`dafny verify dfyconfig.toml` checks the whole project.

## How it is put together

Code that changes things in place is a class or a method with loops, and is proved to
do what a function over values says; the theorems are about that function.
`Reachability` is what it means for a system to get from one state to another by a step
relation: every theorem about runs names its relation, and the relations differ in what
they let the lines and the peers do.

| part | as written | its meaning | what is proved |
|---|---|---|---|
| CRC | `Crc.Tables` | `Crc`, `ZmCrc` | table steps are bit-serial steps, residues, bursts |
| HYDRA packets | `HydraTxPkt.Transmitter`, `HydraRxPkt.Receiver`, on one array each | `HydraCodec` | `HydraRoundTrip`, and `HydraStream` for a whole stream of packets |
| HYDRA INIT packet | `HydraInit.PutFlags`, `GetFlags` | `HydraInit` | flags survive, windows do not always |
| HYDRA session | `HydraMachine.Hydra`, two of them in `HydraConnection.Connection` | `HydraPeer`, `HydraLink` | `HydraTransfer`, `HydraSession`, `HydraCompletion`, `HydraProgress`, `HydraLimits`, `HydraWrongEnd`; `HydraWire` is the session over byte lines |
| ZMODEM data and headers | `ZmodemLine`, `ZmodemHeaderLine` | `ZmodemCodec`, `ZmodemHeader` | round trips under flow control and behind garbage |
| ZMODEM transfer | `ZmodemMachine.Rz`, `Sz`, both in `ZmodemConnection.Connection` | `ZmodemPeers`, `ZmodemTransfer` | `ZmodemTransfer`, `ZmodemCompletion`, `ZmodemProgress`, `ZmodemWindow`, `ZmodemMapped` |
| ZMODEM block length | `ZmodemBlockLength.BlockLength` | `ZmodemBlockLength` | bounds, and that the loop finds the cheapest length |
| MD5 | `Md5.Md5Ctx` | `Md5` | streaming is the one-shot digest |
| wildcards | `Wildcard.WildCmp` | `Wildcard` | exactly when it is the glob |
| tagged files | `NodeList.List`, `TagEdit.Editor` | `DownloadCredit` | the credit is never overdrawn |
| FTP | `FtpAscii.SendData`, `ReceiveData` | `FtpAscii` | exactly which files survive |

A peer is a state machine whose input is what its own decoder delivers.  Timers are
nondeterministic timeouts.  The HYDRA lines are first in, first out, and lose packets;
a damaged packet is a lost one.  The ZMODEM lines keep their order; a header may be
lost, any item may be damaged, a flush by the sender cuts off the end of its queue, and
no subpacket vanishes from the middle of a frame.  `long` on the wire is four bytes.
`process_packets` returns a file's outcome that `hydra` drops; the model takes the
returned value as the outcome, as `hydracom/hydra.h` and the callers expect.

HYDRA's step relations, all in `HydraLink`: `Step` is everything the program and the
lines can do, losses, timeouts and aborts included.  In `SteadyStep` a receiver answers
every copy of an offer alike: what it decides about file k is what it finds on its disk,
`disk[k]`.  In `PatientStep`, moreover, a file that the receiver refuses is offered once.
In `SmoothStep` nothing is lost, nothing times out and nobody interferes.  ZMODEM has
`Step` and `SmoothStep` in `ZmodemTransfer`.  A link is in use (`InUse`) when a packet is
under way that is not always hexadecimal.

## Where the code does not do what it is meant to do

* HYDRA windows.  `get_flags` takes its text apart with `strtok`, which writes a NUL
  over every comma, and `process_packets` measures that text afterwards to find the
  windows behind it (`hydracom/hydra.c:274-291`, `1575-1608`).  If a side asks for two
  options or more, its peer reads the second option's name instead of the windows.
  The link options still always agree (`HydraSession.NegotiationAgreement`); the
  windows agree for all settings exactly when neither side asks for two options
  (`HydraSession.WindowsAgree`, and `HydraSession.WindowsInUse` for the windows two sides
  of a run have), a windowed sender faces a receiver that acknowledges
  exactly unless `HydraSession.Unacknowledged` holds of the settings
  (`HydraSession.AckingReceiver`), and `HydraLimits.WindowUnacknowledged` is a run in
  which it does not.
* HYDRA batches.  A FINFOACK does not say which file it answers (`hydracom/hydra.c:1661`).
  If the FINFO of a refused file is sent twice, the second refusal is taken for the next
  file's, and the sender stays one file ahead of the receiver from then on: the first
  accepted file behind gets the bytes of the file after it, under its own name
  (`HydraLimits.Misfiles`).  On any link, exactly the batches in which a file is refused
  in front of an accepted one that is not the last can go wrong in this way, so that a
  file is closed by the end of another one (`HydraLimits.MisfilesExactly`); all the others
  are safe in every run (`HydraTransfer.TransferSafety`), and so is any batch whose refused
  files are offered once (`HydraTransfer.PatientSafety`).
* ZMODEM window.  When the transmit window is full behind the last subpacket, the
  sender asks for an acknowledgement outside a frame, which the receiver passes over.
  From the end of the file a transfer gets to its end without a timeout, loss or damage
  if and only if there is no window or it is not full (`ZmodemCompletion.EndsExactly`).
  If it is full, what frees the sender is the ZRPOS of the receiver's timeout, and only a
  sender that reads its file: with a mapped file nothing that can happen completes the
  transfer (`ZmodemCompletion.EndsAtAll`).  From a clean opening a sender with given
  settings can get stuck on some file if and only if its window is not larger than what
  the spacing of its requests and the receive buffer leave unacknowledged and one longest
  subpacket (`ZmodemWindow.SticksExactly`); a larger one never sticks
  (`ZmodemWindow.NeverStuck`).  A mapped file of 1000 bytes and a window of 256 is an input
  that never completes (`ZmodemMapped.MappedStalls`).
* ZMODEM mapped files.  A sender that maps its file closes the stream and sets it to NULL
  (`ddz/ddsz.c:876-882`), and `getinsync` clears that stream at every ZRPOS
  (`ddz/ddsz.c:1203`): a ZRPOS behind the start of the data is the end of the program.
  Over lines that lose and damage nothing that can happen if and only if the transfer
  starts with a ZRINIT or an offer too many on the lines (`ZmodemMapped.CrashesExactly`).
* MD5 updates.  The loop variable of `MD5Update` has 32 bits, and its test `i + 63 <
  inputLen` wraps around on the last blocks of very long updates; `Md5.InWord` is exactly
  when it does not (`Md5.LoopTestExact`), and one byte followed by 2^32 - 1 is an input for
  which it does (`Md5.LoopTestFails`).
* `wildcmp` is the glob exactly on patterns in which no `?` directly follows a `*`, and
  on names whose only star, if any, is the last character.
* The ASCII translation loses a NUL that directly follows a carriage return, and
  nothing else.

## Model

| member | source | states |
|---|---|---|
| `Crc.TableStep16` | hydracom/hydra.c:62-67 | the byte-wise CRC-16 step with a table entry is eight bitwise shift steps |
| `Crc.TableStep32` | hydracom/hydra.c:62-67 | the same for CRC-32 |
| `Crc.CheckedIsValid` | hydracom/hydra.c:464-476 | for all data, the CRC over the data and its complemented little-endian CRC is 0xf0b8, and 0xdebb20e3 for CRC-32 |
| `Crc.Burst16` | hydracom/hydra.c:737-748 | any corruption of a valid block confined to two adjacent bytes fails the residue test, at any place and length |
| `Crc.Burst32` | hydracom/hydra.c:737-748 | the same for CRC-32 and four adjacent bytes |
| `Crc.Tables.constructor` | hydracom/hydra.c:1117-1132 | hydra_init fills both tables with the eight-step values of every byte |
| `Crc.Tables.Entry` | hydracom/hydra.c:1117-1128 | one table entry: the inner loop computes eight bitwise steps of the index |
| `Crc.Tables.Block16` | hydracom/hydra.c:295-302 | crc16block is the bit-serial CRC of the buffer |
| `Crc.Tables.Block32` | hydracom/hydra.c:306-313 | crc32block is the bit-serial CRC of the buffer |
| `ZmCrc.TablesAreSteps` | ddz/crctab.c:6-112 | every entry of the two literal tables is eight shift steps of its index |
| `ZmCrc.UpdCrcSteps` | ddz/crctab.h:16-16 | updcrc, a lookup in the literal crctab, is eight bitwise steps and the new byte |
| `ZmCrc.UpdC32IsUpdate32` | ddz/crctab.h:17-17 | UPDC32, a lookup in the literal cr3tab, is the reflected CRC-32 step that HYDRA builds its table for |
| `ZmCrc.FlushedIsCcitt` | ddz/zm.c:261-270 | the two zero bytes fed at the end turn the register into the CCITT remainder of the message |
| `ZmCrc.SumIsZero` | ddz/zm.c:261-270 | the receiver's CRC-16 over a message and the two bytes appended to it always ends at 0 |
| `HydraTxPkt.Transmitter.PutBinByte` | hydracom/hydra.c:317-337 | put_binbyte writes the escaped byte at the output pointer, nothing else, and remembers the byte it tested |
| `HydraTxPkt.Transmitter.Frame` | hydracom/hydra.c:349-476 | type byte and complemented CRC go behind the payload, and the byte behind them is untouched |
| `HydraTxPkt.Transmitter.HexBody` | hydracom/hydra.c:485-500 | the in-place hex loop emits the encoding of the original payload |
| `HydraTxPkt.Transmitter.BinBody` | hydracom/hydra.c:502-505 | the same for binary |
| `HydraTxPkt.Transmitter.AscBody` | hydracom/hydra.c:507-519 | the same for the shifted 7-bit form, and it ends inside the buffer |
| `HydraTxPkt.Transmitter.UueBody` | hydracom/hydra.c:521-540 | the same for the uu form; a last single byte is encoded with the stale byte behind it |
| `HydraTxPkt.Transmitter.Encode` | hydracom/hydra.c:478-548 | all four loops: output never overwrites unread input and never leaves H_MAXPKTLEN |
| `HydraTxPkt.Transmitter.SendPrefix` | hydracom/hydra.c:551-568 | the bytes of the prefix string the other side has asked for, without its breaks and pauses |
| `HydraTxPkt.Transmitter.TxPkt` | hydracom/hydra.c:341-571 | for every type, options and payload of at most H_MAXBLKLEN+H_OVERHEAD bytes, the bytes given to the line are the prefix and the pure encoding of the original payload |
| `HydraRoundTrip.PackUnpack` | hydracom/hydra.c:507-519 | bytes shifted into 7-bit characters and back are the same, from any split of the shift register on |
| `HydraRoundTrip.UueDecodes` | hydracom/hydra.c:657-720 | the uu decoder gives back every payload and never shows the stale byte |
| `HydraRoundTrip.RoundTrip` | hydracom/hydra.c:575-749 | every packet txpkt can send is delivered once, with its type and payload, in all formats, with equal options on both ends, or any options for the packets that are always hexadecimal |
| `HydraRoundTrip.SplitRoundTrip` | hydracom/hydra.c:945-990 | the same however the bytes are split across calls |
| `HydraStream.StreamArrives` | hydracom/hydra.c:551-749 | a whole stream of packets, each behind any prefix without DLE, is delivered in order, each packet once and unchanged |
| `HydraStream.StreamInPieces` | hydracom/hydra.c:575-990 | the same however the line cuts the stream |
| `HydraWire.OutArrives` | hydracom/hydra.c:349-749 | in every state of every run, the bytes of all packets under way to one side, whatever their payload layout, are decoded by that side with the options it has then to exactly these packets in order |
| `HydraWire.BackArrives` | hydracom/hydra.c:349-749 | the same for the line to the other side |
| `HydraRxPkt.Receiver.DecodeHex` | hydracom/hydra.c:615-640 | decoding hex inside the receive buffer gives the decoded bytes; the write pointer never passes the read pointer |
| `HydraRxPkt.Receiver.DecodeAsc` | hydracom/hydra.c:642-655 | the same for the shifted 7-bit form |
| `HydraRxPkt.Receiver.DecodeUue` | hydracom/hydra.c:657-720 | the same for the uu form, and where a bad character stops it |
| `HydraRxPkt.Receiver.Check` | hydracom/hydra.c:732-748 | the residue test over the decoded block decides between packet and bad CRC, and sets rxpktlen |
| `HydraRxPkt.Receiver.PktEnd` | hydracom/hydra.c:607-943 | what a packet end does to the state and what it delivers |
| `HydraRxPkt.Receiver.Take` | hydracom/hydra.c:586-988 | one character: escapes, packet start and end, overflow, five DLEs cancel |
| `HydraRxPkt.Receiver.RxPkt` | hydracom/hydra.c:575-749 | rxpkt on the available characters does what the automaton does, and leaves off at the first packet or cancel |
| `HydraInit.PutFlags` | hydracom/hydra.c:255-271 | the names of the set flags in table order, joined by commas |
| `HydraInit.GetFlags` | hydracom/hydra.c:274-291 | the flags named by the comma-separated tokens; unknown names are ignored |
| `HydraInit.FlagsRoundTrip` | hydracom/hydra.c:255-291 | every flag set that is written out is read back |
| `HydraInit.InitIsRead` | hydracom/hydra.c:1304-1324 | what process_packets reads of an INIT packet: both flag sets, the windows as they are misread, and the prefix if fewer than two options are wanted |
| `HydraInit.WindowsLost` | hydracom/hydra.c:1579-1595 | two configurations whose windows are read as 0 and 0, and as 12 and 0, whatever they were |
| `HydraMachine.Hydra.constructor` | hydracom/hydra.c:1134-1187 | hydra_init and the first call of hydra leave a fresh session |
| `HydraMachine.Hydra.OnInit` | hydracom/hydra.c:1574-1644 | option and window negotiation, once per session |
| `HydraMachine.Hydra.ReadWindows` | hydracom/hydra.c:1590-1606 | the windows that are read of an INIT, cut to our own |
| `HydraMachine.Hydra.OnFinfo` | hydracom/hydra.c:1657-1659 | a file is offered, or the end of the batch |
| `HydraMachine.Hydra.NewFile` | hydracom/hydra.c:2179-2264 | the file is there already, refused, or opened at its old length |
| `HydraMachine.Hydra.OnFinfoAck` | hydracom/hydra.c:1661-1736 | the sender starts, skips the file, or has ended its batch |
| `HydraMachine.Hydra.OnData` | hydracom/hydra.c:1738-1855 | a block is stored only at the receiver's own position, and acknowledged if there is a window |
| `HydraMachine.Hydra.BadPosition` | hydracom/hydra.c:1748-1816 | a block for another position leads to RPOS, not more often than the timer allows |
| `HydraMachine.Hydra.OnDataAck` | hydracom/hydra.c:1857-1876 | acknowledgements only move forward and open the window |
| `HydraMachine.Hydra.OnRpos` | hydracom/hydra.c:1878-1951 | a new sync id moves the sender back and shortens its blocks, an old one counts as a retry |
| `HydraMachine.Hydra.OnEof` | hydracom/hydra.c:1953-2050 | a file is closed only at its own length, or given up |
| `HydraMachine.Hydra.OnEnd` | hydracom/hydra.c:2083-2098 | END completes a side that is itself at the end |
| `HydraMachine.Hydra.Act` | hydracom/hydra.c:2121-2172 | the second switch: what the transmitter does as the receiver's state changes |
| `HydraMachine.Hydra.Process` | hydracom/hydra.c:1479-2174 | a whole packet, and the call for the next file |
| `HydraMachine.Hydra.Turn` | hydracom/hydra.c:1293-1446 | what is sent in each state |
| `HydraMachine.Hydra.SendData` | hydracom/hydra.c:1373-1425 | the next block, the window test, end of file and read errors |
| `HydraMachine.Hydra.Timeout` | hydracom/hydra.c:1507-1545 | which state a timeout leads back to, and when the session is given up |
| `HydraMachine.Hydra.DeviceTurn` | hydracom/hydra.c:1268-1283 | a waiting device packet goes out once the link is up |
| `HydraMachine.Hydra.DeviceSend` | hydracom/hydra.c:184-205 | hydra_devsend takes a message only when the device is idle and negotiated |
| `HydraMachine.Hydra.DeviceTimeout` | hydracom/hydra.c:1550-1563 | a device timeout sends again or gives the session up |
| `HydraConnection.Connection.constructor` | hydracom/hydra.c:1201-1240 | two fresh sessions and two empty lines are the opening of a run |
| `HydraConnection.Connection.Does` | hydracom/hydra.c:1266-1474 | whatever one object or its line does is the step of the link of that name |
| `HydraConnection.Connection.Left` | hydracom/hydra.c:1266-1474 | a step of the first object is a step of a run, and the state stays a state of a run from the opening |
| `HydraConnection.Connection.Right` | hydracom/hydra.c:1266-1474 | the same for the second object |
| `HydraConnection.Connection.Holds` | hydracom/hydra.c:1201-1474 | what the two objects hold, whatever they and the lines have done: packets are encoded as the other side decodes, a completed side means both batches are through, and steady tame batches are delivered |
| `HydraTransfer.TransferSafety` | hydracom/hydra.c:1738-2069 | in every state reachable by steady steps, for every batch in which no file is refused in front of an accepted one that is not the last: the receiver's file is a prefix of the sender's file of that name, every stored file is the sent one, and every file reported XFER_OK is stored whole and under its name |
| `HydraTransfer.PatientSafety` | hydracom/hydra.c:1661-2069 | the same for every batch, whichever files are refused, in every run in which a refused file is offered once |
| `HydraSession.NegotiationAgreement` | hydracom/hydra.c:351-376 | over every run, whenever a packet that is not always hexadecimal is under way, its sender's txoptions are the options it was encoded with and the other side's rxoptions |
| `HydraSession.WindowsAgree` | hydracom/hydra.c:1593-1606 | one side's txwindow is the other's rxwindow, for all settings, if and only if neither side asks for two options or more |
| `HydraSession.WindowsInUse` | hydracom/hydra.c:1593-1606 | in every run, once the link is in use, each side sends with the window the other one receives with, if neither asks for two options |
| `HydraSession.AckingReceiver` | hydracom/hydra.c:1593-1606 | in every run, once the link is in use, a sender with a window faces a receiver that acknowledges if and only if the settings are not of the one bad kind |
| `HydraSession.SessionEnd` | hydracom/hydra.c:2083-2098 | over every run, a side that reaches Completed has seen the peer's end of batch, the peer has seen its own, and both are through with all their files |
| `HydraSession.GrownBounds` | hydracom/hydra.c:1403-1411 | a growth step keeps the block length between its bounds and no 16-bit counter wraps |
| `HydraSession.ShrunkBounds` | hydracom/hydra.c:1906-1925 | a resync from a peer on the ladder keeps the bounds and never lengthens blocks |
| `HydraSession.BlockBounds` | hydracom/hydra.c:1151-1160 | over every run 64 <= txblklen <= txmaxblklen <= 2048, no counter wraps, and no block under way is longer |
| `HydraCompletion.BatchGoes` | hydracom/hydra.c:1327-1438 | by smooth steps alone, which lose and time out nothing, a whole batch of any files gets through, whatever the receiver has on its disk: accepted files are stored whole and reported XFER_OK, the others as refused, and the receiver knows the end |
| `HydraCompletion.Completes` | hydracom/hydra.c:1201-1474 | by smooth steps alone a session in which both sides send batches gets from its start to a state in which both batches are through in this way and both sides have completed |
| `HydraProgress.StepOnwards` | hydracom/hydra.c:1201-1474 | every smooth step of a session that changes anything, whichever side takes it, brings its end nearer and keeps it on its way |
| `HydraProgress.NeverStopsShort` | hydracom/hydra.c:1201-1474 | until both sides are done, something can be done by a smooth step |
| `HydraProgress.EveryRunEnds` | hydracom/hydra.c:1201-1474 | every smooth run of a session, however the two sides take turns, has at most 3 changes for each byte, 8 for each file and 32 more, and nothing can change any more exactly when both batches are delivered, whatever the receivers refuse or have of them already, and both sides have completed |
| `HydraLimits.Misfiles` | hydracom/hydra.c:1661-1736 | in every batch that is not tame, with every copy of an offer answered alike, the first file accepted behind a refused one can be stored with the bytes of the file after it |
| `HydraLimits.MisfilesExactly` | hydracom/hydra.c:1661-1736 | on any link, with a window or without, a run in which a file is closed by the end of another one exists if and only if the batch has a refused file in front of an accepted one that is not the last |
| `HydraWrongEnd.ClosesWrongly` | hydracom/hydra.c:1661-2069 | in every batch that is not tame, on any link, a run in which a file is closed by the end of the file behind it |
| `HydraLimits.WindowUnacknowledged` | hydracom/hydra.c:1579-1606 | a run in which a sender with a window of 4096 bytes faces a receiver that never acknowledges |
| `ZmodemLine.Sender.FillTable` | ddz/zm.c:682-716 | the escape table holds the class of every byte for the current Zctlesc |
| `ZmodemLine.Sender.ZSendLine` | ddz/zm.c:130-160 | a byte goes out escaped as its class and the byte before it demand |
| `ZmodemLine.Sender.ZsData` | ddz/zm.c:253-309 | zsdata and zsda32 send the data, the frame end and the check as one subpacket |
| `ZmodemLine.Receiver.ZdlRead` | ddz/zm.c:755-763 | flow control and dropped controls are passed over, escapes are resolved |
| `ZmodemLine.Receiver.ZdlRead2` | ddz/zm.c:765-824 | what follows an escape character, and five cancels |
| `ZmodemLine.Receiver.ZrData` | ddz/zm.c:316-422 | zrdata and zrdat32 store what the reader function reads, at most length + 1 bytes, and set Rxcount |
| `ZmodemCodec.DataRoundTrip` | ddz/zm.c:253-422 | for all data within the capacity, every frame end and both check sizes, the reader returns the frame end, the bytes and the count, with XON and XOFF of either parity put in anywhere, if the receiver's Zctlesc implies the sender's |
| `ZmodemCodec.ControlVanishes` | ddz/zm.c:755-763 | why it must: a control character sent plain is dropped by a receiver with Zctlesc |
| `ZmodemHeaderLine.ZsbHdr` | ddz/zm.c:163-205 | zsbhdr and zsbh32 send the binary header of the type and four bytes |
| `ZmodemHeaderLine.ZshHdr` | ddz/zm.c:208-246 | zshhdr sends the hex header and leaves lastsent alone |
| `ZmodemHeaderLine.Scanner.ZGetHdr` | ddz/zm.c:435-549 | the goto-driven scanner does what the scanning function does, and keeps header and position |
| `ZmodemHeaderLine.Scanner.ReadForm` | ddz/zm.c:552-669 | zrbhdr, zrbhdr32 and zrhhdr read and check a header |
| `ZmodemHeaderLine.Scanner.NoXrd7` | ddz/zm.c:830-850 | noxrd7 passes over flow control and strips parity |
| `ZmodemHeader.HeaderRoundTrip` | ddz/zm.c:435-549 | for every type and header in all three encodings, behind any garbage shorter than the limit without ZPAD and CAN, zgethdr returns that type and header |
| `ZmodemHeader.PositionArrives` | ddz/zm.c:853-871 | the position stohdr stored is the one rclhdr reads from the received header |
| `ZmodemHeader.PositionRoundTrip` | ddz/zm.c:853-871 | rclhdr undoes stohdr for every 32-bit position |
| `ZmodemMachine.Rz.constructor` | ddz/ddrz.c:968-1000 | a fresh binary receive asks for the file from 0 |
| `ZmodemMachine.Rz.TakeHeader` | ddz/ddrz.c:1010-1085 | rzfile's switch over headers |
| `ZmodemMachine.Rz.TakeData` | ddz/ddrz.c:1086-1136 | rzfile's switch over subpackets: store, count, acknowledge |
| `ZmodemMachine.Rz.PutSec` | ddz/ddrz.c:747-772 | putsec in binary mode appends the bytes |
| `ZmodemMachine.Sz.GetInSync` | ddz/ddsz.c:1186-1233 | getinsync on one item: positions, sync, errors, and the end of a sender whose stream is gone |
| `ZmodemMachine.Sz.Fill` | ddz/ddsz.c:943-952 | how many bytes the next subpacket takes from the file, mapped or read, at any position |
| `ZmodemMachine.Sz.ZFilBuf` | ddz/ddsz.c:545-553 | a read of one block returns the file from the current position, as much as there is up to a block, and sets Eofseen exactly when that is less than a block |
| `ZmodemMachine.Sz.ChooseEnd` | ddz/ddsz.c:954-965 | which frame end a subpacket gets, and how the two counters move |
| `ZmodemMachine.Sz.SendSub` | ddz/ddsz.c:936-985 | the next subpacket, its frame end and what the sender does behind it, at any position |
| `ZmodemMachine.Sz.PollDone` | ddz/ddsz.c:1020-1034 | the window test behind a subpacket |
| `ZmodemMachine.Sz.Advance` | ddz/ddsz.c:858-1067 | what the sender does without hearing anything |
| `ZmodemMachine.Sz.Hear` | ddz/ddsz.c:784-1067 | what the sender does with a header, a damaged item or a timeout, wherever it reads; a ZRPOS inside the data ends a mapped one |
| `ZmodemConnection.Connection.constructor` | ddz/ddsz.c:784-798 | a sender and a receiver that have begun, with what they begin with on the lines, are the opening of a run |
| `ZmodemConnection.Connection.Does` | ddz/ddsz.c:784-1067 | whatever one of the two objects or a line does is the step of that name |
| `ZmodemConnection.Connection.Happens` | ddz/ddsz.c:784-1067 | and the state stays a state of a run from the opening |
| `ZmodemConnection.Connection.Holds` | ddz/ddrz.c:968-1138 | what the two objects hold, whatever they and the lines have done: the receiver's file is a prefix of the sender's, and all of it when either side has ended well |
| `ZmodemTransfer.TransferSafety` | ddz/ddrz.c:968-1138 | from any number of ZRINITs and offers still on the lines on, in every reachable state the receiver holds the first rxbytes bytes of the sent file, an accepted ZEOF means all of it, and so does OK at the sender |
| `ZmodemCompletion.ReachesEnd` | ddz/ddsz.c:858-1067 | by smooth steps alone a transfer gets behind the last subpacket, for any file, receive buffer, window and way of reading |
| `ZmodemCompletion.EndsExactly` | ddz/ddsz.c:1020-1034 | from there it gets to its end by smooth steps if and only if there is no window or it is not full |
| `ZmodemCompletion.EndsAtAll` | ddz/ddsz.c:1186-1211 | by any steps at all, losses and timeouts included, it gets to its end if and only if there is no full window or the sender does not map its file |
| `ZmodemCompletion.WindowStalls` | ddz/ddsz.c:1020-1034 | if the window is full, the receiver's timeout puts a ZRPOS for the end of the file on the line, and nothing else has moved |
| `ZmodemWindow.NeverStuck` | ddz/ddsz.c:936-1034 | from a clean opening, no smooth run of a sender whose window has room for the unacknowledged end of its file gets stuck |
| `ZmodemWindow.SticksExactly` | ddz/ddsz.c:936-1034 | for given settings a smooth run of some file gets stuck if and only if the window is on and not larger than what the spacing and the receive buffer leave unasked and one longest subpacket |
| `ZmodemWindow.Completes` | ddz/ddsz.c:858-1067 | a transfer that starts clean can get to its end with nothing worse than one timeout of the receiver, whatever the file, window and receive buffer, if the sender reads its file, or maps it and its window has that room |
| `ZmodemMapped.CrashesExactly` | ddz/ddsz.c:870-885 | a sender that maps its file can be ended by a ZRPOS in a smooth run if and only if it starts with a ZRINIT or an offer too many |
| `ZmodemMapped.MappedStalls` | ddz/ddsz.c:1186-1211 | every mapped file of 1000 bytes with a window of 256 gets by smooth steps to a state from which no steps at all complete it |
| `ZmodemProgress.StepOnwards` | ddz/ddsz.c:858-1067 | every smooth step that changes anything, whichever side takes it, brings the end nearer |
| `ZmodemProgress.NeverStopsShort` | ddz/ddsz.c:858-1067 | until the sender has ended well, something can be done by a smooth step, unless it is stuck in front of a full window or the receiver has accepted the end of the file and has only to say so |
| `ZmodemProgress.EveryRunEnds` | ddz/ddsz.c:858-1067 | every smooth run from a clean opening, however the sides take turns, has at most 40 changes for each byte and 62 more until the sender has ended well, apart from the receiver's ZRINITs, and can stop earlier only in front of a full window or before the receiver says its ZRINIT |
| `ZmodemBlockLength.OptionsGuarantee` | ddz/ddsz.c:164-169 | the options keep start_blklen and max_blklen powers of two with 1024 <= start <= max |
| `ZmodemBlockLength.BestIsBest` | ddz/ddsz.c:1149-1173 | the loop finds a length whose transmission cost is the least of all |
| `ZmodemBlockLength.ChooseOk` | ddz/ddsz.c:1149-1181 | the choice is a power of two, at most twice the last one, and the cheapest unless cut to that |
| `ZmodemBlockLength.BlockLengths` | ddz/ddsz.c:1069-1181 | after a first positive total, whatever follows, every length is a power of two between 32 and max_blklen |
| `ZmodemBlockLength.BlockLength.CalcBlklen` | ddz/ddsz.c:1069-1181 | the static variables and the result of one call |
| `ZmodemBlockLength.BlockLength.FindBest` | ddz/ddsz.c:1149-1173 | the loop as it is written |
| `Md5.Md5Ctx.constructor` | main/md5.c:101-111 | MD5Init: the empty message |
| `Md5.LoopTestExact` | main/md5.c:137-147 | the 32-bit loop test is right at every block if and only if InWord holds of the bytes that wait and the length of the update |
| `Md5.LoopTestFails` | main/md5.c:137-147 | it is wrong when one byte waits and 2^32 - 1 come |
| `Md5.Md5Ctx.MD5Update` | main/md5.c:117-153 | under exactly that condition the context absorbs the input: state folds MD5Transform over whole blocks, buffer holds the rest, count is 8 times the length mod 2^64 |
| `Md5.Md5Ctx.MD5Final` | main/md5.c:158-182 | the digest of everything absorbed, and the context is zeroed |
| `Md5.Md5Ctx.CopyIn` | main/md5.c:305-311 | MD5_memcpy into the buffer |
| `Md5.Md5Ctx.Clear` | main/md5.c:315-321 | MD5_memset to zero |
| `Md5.MD5Transform` | main/md5.c:186-273 | the 64 unrolled lines are the four rounds of RFC 1321, section 3.4 |
| `Md5.DecodeBlock` | main/md5.c:293-300 | sixteen little-endian words |
| `Md5.CountCarries` | main/md5.c:117-153 | the two count words carry as one 64-bit bit count |
| `Md5.AbsorbAppend` | main/md5.c:117-153 | absorbing whole blocks piece by piece is absorbing their concatenation |
| `Md5.Streamed` | main/md5.c:101-182 | for every way of cutting a message into updates whose loop tests do not wrap around, the digest is that of the padded whole |
| `Md5.PaddingIsInjective` | main/md5.c:158-182 | different messages are padded to different blocks |
| `Wildcard.WildCmp` | main/misc.c:106-136 | wildcmp terminates and returns the matching function |
| `Wildcard.Sound` | main/misc.c:106-136 | a 1 always means a case-insensitive glob match |
| `Wildcard.Agrees` | main/misc.c:106-136 | it is the glob for names without a star, but perhaps as the last character, and patterns without `*?` |
| `Wildcard.PatternsThatAgree` | main/misc.c:106-136 | the patterns that agree with the glob on every name without a star are exactly those without `*?` |
| `Wildcard.NamesThatAgree` | main/misc.c:106-136 | the names that agree for every pattern without `*?` are exactly those with no star but the last character |
| `NodeList.List.constructor` | main/lists.c:5-14 | NewList: an empty list between its two ends |
| `NodeList.List.AddTail` | main/lists.c:16-25 | the node is linked in as the last one |
| `NodeList.List.Remove` | main/lists.c:27-36 | the node is unlinked and its own successor stays readable |
| `TagEdit.Editor.RecountFiles` | main/tagedit.c:315-331 | the counters become the list's sums |
| `TagEdit.Editor.IsFileTagged` | main/tagedit.c:373-386 | whether a name is tagged, without regard to case |
| `TagEdit.Editor.AddTag` | main/tagedit.c:336-371 | the new list, counters and code |
| `TagEdit.Editor.UnflagFile` | main/tagedit.c:420-440 | the matching files leave the list, and how many |
| `TagEdit.Editor.Downloaded` | main/download.c:135-172 | the sent files leave the list in order into the log, and are charged |
| `DownloadCredit.AddTagDecides` | main/tagedit.c:336-371 | a file is taken exactly if it is new and is free or leaves the account within its credit; each code means its reason |
| `DownloadCredit.AddTagSound` | main/tagedit.c:336-371 | a taken file is appended, a refused one changes nothing, and the account stays sound |
| `DownloadCredit.UnflagSound` | main/tagedit.c:420-440 | exactly the files that do not match stay, and the account stays sound |
| `DownloadCredit.DownloadTakes` | main/download.c:135-172 | what leaves the list is everything up to and with the first file called as the last one sent, or all of it |
| `DownloadCredit.DownloadConserves` | main/download.c:135-172 | downloaded plus charged tagged files and bytes stay the same |
| `DownloadCredit.NeverOverdrawn` | main/tagedit.c:315-385 | over every run the counters are the list's sums, no name is tagged twice, and while a charged file is tagged, downloads plus charged tags stay within ratio times uploads plus free credit, in files and bytes |
| `FtpAscii.SendData` | ddftp/ddftpd.c:1001-1018 | the outgoing translation and the byte count |
| `FtpAscii.ReceiveData` | ddftp/ddftpd.c:1129-1146 | the incoming translation, the byte count and the bare line feeds |
| `FtpAscii.RoundTrip` | ddftp/ddftpd.c:1129-1146 | out and in again is the same file if and only if no NUL directly follows a CR, and no bare line feed is reported |
| `FtpAscii.NoBareLf` | ddftp/ddftpd.c:1001-1018 | on the line every line feed follows a carriage return |

## Left out

- Md5.Md5Ctx.MD5Update: updates for which InWord does not hold; the loop goes on behind the end of the input there (Md5.LoopTestExact).
- Md5.Streamed: the same.
- HydraTransfer.TransferSafety: batches that are not tame, where it is false (HydraLimits.MisfilesExactly), and receivers that answer two copies of one offer differently.
- HydraCompletion.BatchGoes: one schedule of smooth steps; HydraProgress.EveryRunEnds is about all of them.
- HydraCompletion.Completes: the same schedule.
- HydraProgress.EveryRunEnds: half-duplex links, where two waiting senders go on only after a timeout, and the settings of HydraSession.Unacknowledged, under which a sender waits for acknowledgements that do not come.
- HydraMachine.Hydra.DeviceTimeout: the count of the device's retries is given from outside.
- ZmodemWindow.Completes: starts with stale offers or ZRINITs still on the lines, and mapped files without that room, where it is false for some (ZmodemMapped.MappedStalls).
- ZmodemProgress.EveryRunEnds: starts with stale offers or ZRINITs, where a mapped sender can be ended (ZmodemMapped.CrashesExactly).
- HydraRxPkt.Receiver.RxPkt: after a cancel sequence, which ends the session, nothing is said about the receive pointer; the returns for a lost carrier, an operator abort and the timers are actions of the link.
- HydraRxPkt.Receiver.PktEnd: arithmetic on a null receive pointer is modelled as no packet.
- HydraTxPkt.Transmitter.TxPkt: the break signals and pauses in a packet prefix.
- NodeList.List.constructor: the list header, whose two ends overlap in memory, is two nodes.
- HYDRA payload layout other than INIT: packets are records of their fields.
- HYDRA chat, device contents, message text, logging and progress display; a device is only idle or busy.
- HYDRA sessions of several batches, and files that cannot be opened.
- Negative window settings (the program clamps them) and window texts with signs, blanks or a 0x, which no peer sends.
- Corruption that passes the CRC, and headers forged inside data or garbage.
- ZMODEM: resume and open modes, carrier loss, write errors (rzfile ignores them) and XMODEM/YMODEM.
- calc_blklen with totals near 2^31, where its products overflow; the model counts without bounds.
- Overflow of the tag counters and of the credit products, and names cut to their field lengths.
- Letters outside the C locale in case-insensitive comparisons.
- Files of 2^31 bytes and more.
