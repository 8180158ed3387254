# Robotic link controllers: wire protocol, link sessions and manual control tables

This project models the discrete core of a robot system built from "links".
A link is a robot with two servos that connects to a server over a socket.
The model covers:

- **The RML wire protocol** (`rmlprotocol.py`).
  - A frame is a two-byte `length|type` header, a body laid out by a `struct` format, and a two-byte checksum footer.
  - The checksum is a bit-serial CRC with generator `0x4599`, the polynomial of section 3.1.1 of the Bosch CAN 2.0 specification, part A.
  - The code does not compute a conforming CAN CRC. It feeds only the 7 low bits of every byte, least significant bit first.
  - The model follows the code, including native `struct` alignment (the Update body is 10 bytes with 9 fields).
- **The link server and link sessions** (`linknetworking_lock.py`).
  - The server keeps a map from device id to session.
  - A session registers with a Hello frame and takes over an id already in use.
  - It mirrors Update frames into a status record with a battery offset of −25.
  - It resends the pending command while the link reports another checksum.
  - It tears itself down with `close_link`.
  - Sockets become a `Connection` object holding the incoming bytes and the frames sent.
- **The tetrahedron** (`cl_tetrahedron.py`, `tetrahedron.py`).
  - Four vertices and six links form a graph.
  - `calculate_pose` names the six links by role relative to the top vertex: ub, ul, ur, bl, br, bf.
  - It also computes which links are mounted the other way round.
  - `topple` moves the top vertex along ub.
- **The manual keyboard controllers** (`manual_controller_v3.py`, `manual_controller_v4.py`, and the archive scripts `manual_controller2.py`, `tetrahedron_picking_up_link.py`, `sticky_controller.py`).
  - The held keys are scanned into a request `(state, mode, param)` and a selection of link indices.
  - A valid request is stored per link ("sticky") and replayed.
  - Targets are filled in from the pair a link was last sent.
  - Every command is recorded on a `Wire` log instead of being sent to a link.
- **The toppling script** (`toppling_tetrahedron.py`).
  - A six-slot map holds `(link, orientation)` entries.
  - It is rewritten by a fixed permutation with some orientations negated.
  - The tip gait sends orientation-dependent commands.

The modules follow the source files:

| module | file | source |
|---|---|---|
| `Common` | common.dfy | Option/Result, bytes, Python's negative indexing, sorted dictionary keys |
| `Crc15` | crc15.dfy | `get_crc_15` |
| `Rml` | rml.dfy | the rest of `rmlprotocol.py` |
| `LinkNet` | link_net.dfy | `linknetworking_lock.py` |
| `Tetra` | tetra.dfy | both tetrahedron files |
| `Manual` | manual.dfy | key scanning and the sticky tables shared by the keyboard controllers |
| `ControllerV3` | controller_v3.dfy | `manual_controller_v3.py` |
| `ControllerV4` | controller_v4.dfy | `manual_controller_v4.py` |
| `Controller2` | controller2.dfy | `manual_controller2.py` |
| `PickingUp` | picking.dfy | `tetrahedron_picking_up_link.py` |
| `Sticky` | sticky.dfy | `sticky_controller.py` |
| `Toppling` | toppling.dfy | `toppling_tetrahedron.py` |

Three behaviours of the code a reader may not expect; the model follows the code in each:

- `close_link` removes `links[device_id]` whichever session that entry holds, not only when it is the closing session itself.
- The Update body is 10 bytes under native alignment (`c`, seven `B`, one `H` on an even offset). The constant `STRUCT_LENGTH_UPDATE = 8` is stale and is never used to read a frame.
- `encode(b'C', …)` gives an empty body, while `decode(b'C', …)` unpacks the 24-byte calibration-constant layout. A calibration body therefore never decodes.

## Model

| member | source | states |
|---|---|---|
| Common.PyIndex | RM_controllers/manual_controller/manual_controller_v3.py:349-359 | a Python list index `i` is valid for a list of length `n` iff −n ≤ i < n, and it then denotes `i` or `i + n` |
| Common.SortedKeys | RM_controllers/manual_controller/manual_controller_v3.py:60 | `sorted(list(keys))` of a set of ids: strictly increasing, the same elements, the same count |
| Common.MinOf | RM_controllers/manual_controller/manual_controller_v3.py:60 | the least element of a non-empty id set, as the sort picks it first |
| Crc15.Step | rmlprotocol.py:68-71 | one bit step keeps the register within 15 bits |
| Crc15.FeedBits | rmlprotocol.py:67-72 | feeding no bits leaves the register; feeding any bits leaves it within 15 bits |
| Crc15.CrcFrom | rmlprotocol.py:65-72 | an empty message leaves the register; a 15-bit register stays within 15 bits |
| Crc15.Crc | rmlprotocol.py:62-75 | the CRC is below 2^15, and the CRC of the empty message is 0 |
| Crc15.GetCrc15 | rmlprotocol.py:62-75 | the nested byte/bit loop computes exactly `Crc(msg)`; the loop invariants carry the register through 7 bits per byte |
| Crc15.FeedOneBit | rmlprotocol.py:67-72 | one turn of the inner loop: feed the low bit, then shift the byte right |
| Crc15.FeedBitsIgnoresHighBits | rmlprotocol.py:67-72 | feeding n bits reads only the low n bits of the byte |
| Crc15.FlipBit7 | rmlprotocol.py:66 | flipping bit 7 keeps the low 7 bits and toggles whether the byte is below 128 |
| Crc15.FeedByteIgnoresBit7 | rmlprotocol.py:67-72 | a byte and the byte with bit 7 flipped feed the register identically |
| Crc15.CrcFromIgnoresBit7 | rmlprotocol.py:65-72 | flipping bit 7 of any one byte of a message leaves the CRC from any start register unchanged |
| Crc15.CrcIgnoresBit7 | rmlprotocol.py:62-75 | `get_crc_15` is blind to bit 7 of every byte |
| Rml.LittleEndian | rmlprotocol.py:110 | a number packed into k bytes takes exactly k bytes |
| Rml.FromLittleEndian | rmlprotocol.py:95 | k bytes read back as a number below 256^k |
| Rml.FromBigEndian | rmlprotocol.py:85 | k bytes read in network order give a number below 256^k |
| Rml.LittleEndianRoundTrip | rmlprotocol.py:95 | reading back a packed number below 256^k gives the number |
| Rml.FromLittleEndianRoundTrip | rmlprotocol.py:110 | packing a read-back value gives the same bytes |
| Rml.EncodeField | rmlprotocol.py:110 | a value in range packs into the size of its field |
| Rml.DecodeField | rmlprotocol.py:95 | an unpacked field value is always in range for its field |
| Rml.FieldRoundTrip | rmlprotocol.py:95 | unpacking a packed in-range field value returns it (signed fields included) |
| Rml.Pad | rmlprotocol.py:16 | the native-alignment padding before a field is less than the field's size |
| Rml.Next | rmlprotocol.py:16 | a field ends at least its size past its offset |
| Rml.EndFrom | rmlprotocol.py:16 | a layout never ends before it starts |
| Rml.Zeros | rmlprotocol.py:110 | padding bytes are n zero bytes |
| Rml.PackFrom | rmlprotocol.py:110 | packing a conforming tuple at an offset fills exactly up to the layout's end |
| Rml.UnpackFrom | rmlprotocol.py:95 | unpacking data of the layout's length gives a conforming tuple |
| Rml.UnpackPackFrom | rmlprotocol.py:95 | unpacking a packed conforming tuple returns it, at any starting offset |
| Rml.Pack | rmlprotocol.py:110 | `struct.pack` succeeds iff every value fits its field, and gives `calcsize` bytes |
| Rml.Unpack | rmlprotocol.py:95 | `struct.unpack` succeeds iff the data has exactly `calcsize` bytes, and gives a conforming tuple |
| Rml.UnpackPack | rmlprotocol.py:94-95 | `unpack(fmt, pack(fmt, v)) == v` for every conforming tuple |
| Rml.Encode | rmlprotocol.py:106-110 | type `C` gives an empty body; any other type packs iff it has a format and the values conform to it |
| Rml.Decode | rmlprotocol.py:94-95 | a type outside `STRUCT_FORMATS` fails; a known type decodes iff the body has the layout's size, into a conforming tuple |
| Rml.EncodeDecode | rmlprotocol.py:94-110 | `decode(t, encode(t, f)) == f` for every non-calibration type and conforming fields |
| Rml.UnpackFirstField | rmlprotocol.py:95 | the first unpacked value is the first field read at its own offset |
| Rml.FromLittleEndianShort | rmlprotocol.py:101 | a one-byte value is the byte; a two-byte value is low + 256·high |
| Rml.DecodeHeader | rmlprotocol.py:89-91 | a header decodes iff it is two bytes, into (length, type) |
| Rml.MakeCrcFooter | rmlprotocol.py:82-85 | the footer is two bytes, the first below 0x80, and read big-endian it is the CRC |
| Rml.VerifyChecksum | rmlprotocol.py:97-101 | defined iff the footer is two bytes (`struct.unpack('H')` fails otherwise) |
| Rml.Swap | linknetworking_lock.py:265 | the two footer bytes trade places |
| Rml.VerifyChecksumExactly | rmlprotocol.py:97-101 | a two-byte footer verifies iff it is the byte-swapped CRC footer of header+body |
| Rml.SentFooterVerifies | rmlprotocol.py:82-101 | a footer built by `make_crc_footer` and byte-swapped as a link sends it always verifies |
| Rml.MakePackage | rmlprotocol.py:116-144 | a package exists iff its body encodes; it is `HEADERS[t]` + body, with the CRC footer of both |
| Rml.LayoutSizes | rmlprotocol.py:9-34 | the sizes of all layouts: Hello 2, Ack 1, Update 10, CAL_CON 24, Position 4, Sinusoidal 14, Walk 1, footer 2, Epoch 8, list header 4 |
| Rml.HeaderLengthIsBodySize | rmlprotocol.py:48-55 | for each sendable type the first header byte is the encoded body length (A=1, C=0, P=4, S=14, W=1, T=8) and the second is the type |
| Rml.MakePackageRoundTrip | rmlprotocol.py:116-144 | a made package decodes back to its fields and its footer verifies once swapped |
| Rml.CalibrationBodyDoesNotDecode | rmlprotocol.py:40 | the calibration body encodes empty but decoding expects 24 bytes, so it fails |
| Rml.UpdateBodyIsTenBytes | rmlprotocol.py:16 | an Update body decodes iff it has 10 bytes, into 9 fields: a character, seven unsigned bytes, one unsigned 16-bit value |
| Rml.ListLettersDoNotDecode | rmlprotocol.py:36-46 | the list letters `L` and `E` have no format, so decoding them fails |
| Rml.MakeCalibratePackage | rmlprotocol.py:116-119 | the calibrate package is `[0, 'C']` with a matching footer |
| Rml.Nums | rmlprotocol.py:123 | bytes as a tuple of numbers, element by element |
| Rml.PackBytes | rmlprotocol.py:123 | a tuple of bytes packed by an all-`B` layout is the bytes themselves |
| Rml.EncodePosition | rmlprotocol.py:121-124 | a position body encodes iff all four values are bytes, and is those four bytes |
| Rml.MakePositionPackage | rmlprotocol.py:121-124 | exists iff all four values are bytes; it is `[4, 'P', s0, s1, v0, v1]` with a matching footer |
| Rml.SinusoidalValues | rmlprotocol.py:126-129 | the nine fields in argument order |
| Rml.SinusoidalConforms | rmlprotocol.py:20 | in-range sinusoidal arguments conform to `H B B h H B B h H` |
| Rml.EncodeSinusoidal | rmlprotocol.py:126-129 | a sinusoidal body encodes iff every argument is in range, into 14 bytes |
| Rml.MakeSinusoidalPackage | rmlprotocol.py:126-129 | exists iff every argument is in range; its header is `[14, 'S']`, its body decodes back to the arguments, its footer matches |
| Rml.EncodeWalk | rmlprotocol.py:131-134 | a walk body encodes iff the step count is a one-byte character, and is that byte |
| Rml.MakeWalkPackage | rmlprotocol.py:131-134 | exists iff the step count is a character; it is `[1, 'W', c]` with a matching footer |
| Rml.EncodeEpoch | rmlprotocol.py:136-139 | an epoch body encodes iff the value is a signed 64-bit integer |
| Rml.MakeEpochPackage | rmlprotocol.py:136-139 | exists iff the epoch is a signed 64-bit value; its header is `[8, 'T']`, its body decodes to the epoch, its footer matches |
| Rml.EncodeAck | rmlprotocol.py:141-144 | an ack body encodes iff the ack is a byte, and is that byte |
| Rml.MakeAckPackage | rmlprotocol.py:141-144 | exists iff the ack is a byte; it is `[1, 'A', ack]` with a matching footer |
| Rml.MakeListHeader | rmlprotocol.py:112-114 | succeeds iff the repeat count is a signed and the start time an unsigned 16-bit value, giving 4 bytes |
| Rml.MakeListPosition | rmlprotocol.py:146-148 | `[duration, 'P', s0, s1, v0, v1]` iff the duration is a byte; a bad duration is refused by `bytes([…])` |
| Rml.MakeListSin | rmlprotocol.py:150-152 | succeeds iff the duration is a byte and the arguments are in range; it is `[duration, 'S']` followed by a body decoding back to the arguments |
| Rml.MakeList | rmlprotocol.py:154-157 | succeeds iff the body has at most 255 bytes; it is `[len(body), 'L'] + body` with a matching footer |
| LinkNet.ToBytes2 | linknetworking_lock.py:260 | `int.to_bytes(2, 'big')` succeeds iff 0 ≤ n < 65536, and reads back as n |
| LinkNet.ChecksumBytes | linknetworking_lock.py:256-260 | a bytes checksum is used as given; an integer is converted iff it fits two bytes |
| LinkNet.SwapFirstTwo | linknetworking_lock.py:265 | `[cs[1], cs[0]]` for a checksum of at least two bytes |
| LinkNet.FromBigEndianPair | linknetworking_lock.py:258 | two bytes read big-endian are high·256 + low |
| LinkNet.FooterAsInteger | linknetworking_lock.py:256-260 | converting a footer to an integer and back gives the same bytes |
| LinkNet.Take | linknetworking_lock.py:166 | reading n bytes yields n bytes, or all that is left |
| LinkNet.Receive | linknetworking_lock.py:165-188 | the receive loop only consumes input, and a returned frame consumes at least one byte |
| LinkNet.ReceivedLayout | linknetworking_lock.py:165-188 | a returned frame's values conform to the layout of its type |
| LinkNet.RepeatsExtend | linknetworking_lock.py:232-234 | appending a copy of the last frame sent keeps "only repeats since then" |
| LinkNet.ReceiveSkipsBadFrame | linknetworking_lock.py:166-173 | a frame whose checksum fails is discarded and reading carries on with the rest |
| LinkNet.ReceiveSentFrame | linknetworking_lock.py:252-265 | a frame sent by `send_package` is received with the values and type it was made from |
| LinkNet.LinkServer.constructor | linknetworking_lock.py:35-71 | a new server is running and listening with an empty link map |
| LinkNet.LinkServer.Size | linknetworking_lock.py:97-98 | `size()` is the number of registered links |
| LinkNet.LinkServer.CloseServer | linknetworking_lock.py:104-113 | afterwards the server is stopped, the map is empty, and every link it held is stopped |
| LinkNet.RobotLink.constructor | linknetworking_lock.py:121-163 | a new session is running, unregistered, with no status, no pending command and checksums 0 |
| LinkNet.RobotLink.SendPackage | linknetworking_lock.py:252-272 | records `last_sent_package` and the checksum value; writes header+body plus the swapped footer; fails without sending when an integer checksum does not fit two bytes |
| LinkNet.RobotLink.SendMade | linknetworking_lock.py:274-300 | a package that cannot be made raises before anything is recorded; a made one is sent |
| LinkNet.RobotLink.SendCalibratePackage | linknetworking_lock.py:274-276 | sends `[0, 'C']` with its footer and records it as pending |
| LinkNet.RobotLink.SendPositionPackage | linknetworking_lock.py:278-281 | mirrors the four targets into the status first; sends iff all are bytes |
| LinkNet.RobotLink.SendPositionOnly | linknetworking_lock.py:295-296 | a position package with both velocities 100 |
| LinkNet.RobotLink.SendSinusoidalPackage | linknetworking_lock.py:283-285 | sends iff the arguments are in range |
| LinkNet.RobotLink.SendWalkPackage | linknetworking_lock.py:287-289 | sends `[1, 'W', c]` iff the step count is a character |
| LinkNet.RobotLink.SendEpochPackage | linknetworking_lock.py:291-293 | sends the server's start epoch iff it is a signed 64-bit value |
| LinkNet.RobotLink.SendList | linknetworking_lock.py:298-300 | sends `[len, 'L'] + body` iff the body has at most 255 bytes |
| LinkNet.RobotLink.CloseLink | linknetworking_lock.py:306-311 | stops the session and removes `links[device_id]` whoever holds it; an unregistered session leaves the map alone |
| LinkNet.RobotLink.ReceivePackage | linknetworking_lock.py:165-188 | returns what `Receive` returns on the bytes waiting, and consumes what it consumed |
| LinkNet.RobotLink.HandleUpdate | linknetworking_lock.py:220-234 | the status mirror (`Mirrored`) takes fields 0-4 and 6-7 and battery field5 − 25, and the executing checksum is field 8; a non-ASCII status fails; a differing executing checksum resends the pending package once, unchanged; an equal one sends nothing |
| LinkNet.RobotLink.ServeFrame | linknetworking_lock.py:214-234 | one frame read as `Receive` reads it: a receive or decode failure, or a non-ASCII Update, ends the loop with a cause; an ASCII Update sets the status to its mirror, and any other frame leaves the status; the pending command is untouched and at most a repeat of the last frame is sent |
| LinkNet.RobotLink.Serve | linknetworking_lock.py:214-234 | after registration every frame sent is a repeat of the pending one, and the loop ends only with a cause |
| LinkNet.RobotLink.Register | linknetworking_lock.py:195-210 | when the first frame read is not a Hello (or cannot be read) the session stays unregistered with a cause and the map is unchanged; a Hello sets `device_id` to its field 0 and `MAX_VEL` to its field 1 and maps that id to this session, closing an earlier holder first |
| LinkNet.RobotLink.Run | linknetworking_lock.py:190-247 | a session ends stopped and closed, with its own entry (if it registered) removed and the rest of the map unchanged; it registers under field 0 of a first Hello frame, and a first frame that is not a Hello ends it unregistered with the map unchanged |
| LinkNet.RobotLink.Conclude | linknetworking_lock.py:214-247 | after the first frame: serve frames when registered, then close the session in any case; a registration failure is kept as the cause |
| LinkNet.RobotLink.HandleHello | linknetworking_lock.py:200-210 | `device_id := field0`, `MAX_VEL := field1`; an id already in use is taken over without changing `size()`; a new id grows it by one; the epoch is then sent |
| LinkNet.RobotLink.Enroll | linknetworking_lock.py:203-207 | the map entry becomes this session and a previous holder is stopped |
| LinkNet.RegisterThenRemove | linknetworking_lock.py:306-309 | registering and then closing a session leaves the rest of the map as before |
| LinkNet.EpochPackageOnWire | linknetworking_lock.py:291-293 | the epoch package is `[8, 'T']` + 8 bytes + a footer that verifies |
| LinkNet.EpochWireReadsBack | linknetworking_lock.py:291-293 | the bytes the epoch send puts on the wire are received as one Epoch frame carrying the epoch |
| LinkNet.ListHead | linknetworking_lock.py:316-318 | `ListMaker.HEAD` is the 4-byte list header iff its arguments are in range |
| LinkNet.ListPosVel | linknetworking_lock.py:320-322 | `ListMaker.POSVEL` is the 6-byte position item iff the duration is a byte |
| LinkNet.ListSin | linknetworking_lock.py:324-326 | `ListMaker.SIN` always fails: it passes 3 arguments to a builder taking 10 |
| LinkNet.ListTail | linknetworking_lock.py:328-330 | `ListMaker.TAIL` is `[0, 'E']` |
| Manual.Wire.constructor | RM_controllers/manual_controller/manual_controller_v3.py:349-359 | a fresh command log is empty |
| Manual.Wire.Send | RM_controllers/manual_controller/manual_controller_v3.py:359 | `send_position_only` appends exactly one position command |
| Manual.DigitOf | RM_controllers/manual_controller/manual_controller_v3.py:156-157 | a character is a digit iff it is 0-9, and its value is below 10 |
| Manual.SelectedBy | RM_controllers/manual_controller/manual_controller_v3.py:156-157 | a digit key selects index digit − 1 (digit itself in the archive sticky script); only those key forms select |
| Manual.AllIndices | RM_controllers/manual_controller/manual_controller_v3.py:158-169 | `range(len(link_ids))`: n indices 0…n−1 |
| Manual.ScanKeys | RM_controllers/manual_controller/manual_controller_v3.py:139-244 | the key loop computes the scan `ScanFrom` defines |
| Manual.ScanArrows | RM_controllers/manual_controller/manual_controller_v3.py:235-244 | after the loop, left (right) is set iff it was set or the left (right) arrow is held |
| Manual.ModeNeedsModeKey | RM_controllers/manual_controller/manual_controller_v3.py:158-169 | without up, down, '+' or '-' the mode never changes from its start value |
| Manual.Picked | RM_controllers/manual_controller/manual_controller_v3.py:156-157 | one key selects at most one index |
| Manual.Digits | RM_controllers/manual_controller/manual_controller_v3.py:156-157 | the digit keys select at most one index each |
| Manual.ScanKeySelection | RM_controllers/manual_controller/manual_controller_v3.py:156-157 | a key other than '+'/'-' appends its own selection and nothing else |
| Manual.SelectionIsDigits | RM_controllers/manual_controller/manual_controller_v3.py:139-157 | without '+'/'-', the selection is the held digits' indices in key order |
| Manual.ScanKeyKeepsAll | RM_controllers/manual_controller/manual_controller_v3.py:158-169 | once '+'/'-' selected every link, a later key that does not undo it keeps the all-links request |
| Manual.AllRequestedKept | RM_controllers/manual_controller/manual_controller_v3.py:139-169 | the same over the rest of the key loop |
| Manual.SignKeyRequestsAll | RM_controllers/manual_controller/manual_controller_v3.py:158-169 | holding '+' ('-') and no key that undoes it requests every link expanded (contracted) with both servos |
| Manual.SignKeySelectsAll | RM_controllers/manual_controller/manual_controller_v3.py:158-169 | from a fresh scan that request selects all indices 0…n−1, state 1, mode 1 (0), param 2 |
| Manual.ParamOf | RM_controllers/manual_controller/manual_controller_v3.py:264-269 | both arrows give 2, left alone 0, right alone 1, no arrow keeps param |
| Manual.StateToPos | RM_controllers/manual_controller/manual_controller_v3.py:325-346 | expand gives 100 and contract gives the minimum on the servos `param` names (0, 1 or both); any other mode or param leaves that servo `None` |
| Manual.SetPos | RM_controllers/manual_controller/manual_controller_v3.py:349-359 | at most one command per index; finished iff every index sent (a bad index raises) |
| Manual.LinksOf | RM_controllers/manual_controller/manual_controller_v3.py:357 | exactly the links that commands were sent to |
| Manual.SetPosAddresses | RM_controllers/manual_controller/manual_controller_v3.py:349-359 | the k-th command goes to `link_ids[idx[k]]` (Python indexing), and stops at the first bad index |
| Manual.SetPosRemembers | RM_controllers/manual_controller/manual_controller_v3.py:357 | `link_states_pretty` afterwards is the old one updated with each pair sent, in order |
| Manual.RememberOnlyTouchesSent | RM_controllers/manual_controller/manual_controller_v3.py:357 | entries of links not sent to are unchanged; every link sent to has an entry |
| Manual.CarriedPairEverywhere | RM_controllers/manual_controller/manual_controller_v3.py:350-359 | full targets are sent unchanged to every index |
| Manual.FirstPairReused | RM_controllers/manual_controller/manual_controller_v3.py:350-359 | because the targets are reassigned in the loop, every later index is sent the pair filled for the first |
| Manual.FillAgain | RM_controllers/manual_controller/manual_controller_v3.py:350-356 | remembering one link's filled pair does not change how another link's pair is filled |
| Manual.OwnPairPerLink | RM_controllers/manual_controller/manual_controller_v4.py:217-226 | without carrying, each link's `None` targets come from that link's own previous pair or 22 |
| Manual.Keys | RM_controllers/manual_controller/manual_controller_v3.py:307-310 | the keys of `link_states` in insertion order |
| Manual.Lookup | RM_controllers/manual_controller/manual_controller_v3.py:287-292 | a link has a stored request iff it is a key |
| Manual.StoreMeaning | RM_controllers/manual_controller/manual_controller_v3.py:287-292 | storing a request for one link changes only that link's entry; a new key goes last, an old one keeps its place |
| Manual.StoreKeepsDistinct | RM_controllers/manual_controller/manual_controller_v3.py:287-292 | the dictionary keys stay distinct |
| Manual.StoreAllMeaning | RM_controllers/manual_controller/manual_controller_v3.py:287-292 | after a sticky store, each selected link maps to the request and every other link keeps its entry |
| Manual.StoreAllKeepsDistinct | RM_controllers/manual_controller/manual_controller_v3.py:287-292 | the keys stay distinct over the whole store loop |
| Manual.SetPosOne | RM_controllers/manual_controller/manual_controller_v3.py:314-322 | executing one index sends one command, to its link, with the filled pair, and remembers it |
| Manual.ReplayKeepsOthers | RM_controllers/manual_controller/manual_controller_v3.py:307-310 | replaying the sticky states leaves the remembered pair of every link they do not name |
| Manual.ReplayAgain | RM_controllers/manual_controller/manual_controller_v3.py:307-310 | replaying twice in a row (no new keys) remembers and sends the same as replaying once |
| Manual.StickyCommandStores | RM_controllers/manual_controller/manual_controller_v3.py:278-292 | a sticky command stores the finished request for every selected index and keeps the others |
| Manual.LinkTable.constructor | RM_controllers/manual_controller/manual_controller_v3.py:115-119 | the tables start empty |
| Manual.LinkTable.Clear | RM_controllers/manual_controller/manual_controller_v3.py:115-119 | `link_states` and `link_states_pretty` become empty |
| Manual.LinkTable.SetLinkPos | RM_controllers/manual_controller/manual_controller_v3.py:349-359 | the loop sends and remembers exactly what `SetPos` describes |
| Manual.LinkTable.ExecuteState | RM_controllers/manual_controller/manual_controller_v3.py:314-322 | `_execute_state` is `_set_link_pos` on the targets of the request, with minimum 22 |
| Manual.LinkTable.ExecuteStickyStates | RM_controllers/manual_controller/manual_controller_v3.py:307-310 | each stored request is executed on its own link, in dictionary order |
| Manual.LinkTable.Apply | RM_controllers/manual_controller/manual_controller_v3.py:278-292 | an invalid command stores nothing and replays (sticky) or does nothing; a valid one stores for the sorted selection and replays (sticky) or executes once |
| Manual.Insert | RM_controllers/manual_controller/manual_controller_v3.py:284 | inserting into a sorted list keeps it sorted and adds exactly the element |
| Manual.ConsNonDecreasing | RM_controllers/manual_controller/manual_controller_v3.py:284 | a least element in front of a sorted list gives a sorted list |
| Manual.Sorted | RM_controllers/manual_controller/manual_controller_v3.py:284 | `selected_links.sort()`: sorted, and a permutation of the selection |
| Manual.Pressed | RM_controllers/manual_controller/manual_controller_v3.py:361-371 | pressing adds the key and nothing else |
| Manual.Released | RM_controllers/manual_controller/manual_controller_v3.py:373-383 | releasing a held key removes it; releasing a key not held clears the set |
| Manual.PressThenRelease | RM_controllers/manual_controller/manual_controller_v3.py:361-383 | pressing and releasing a new key gives back the held set |
| Manual.HeldKeys.constructor | RM_controllers/existing_scripts_archive/manual_controller2.py:179 | no key is held at start |
| Manual.HeldKeys.OnPress | RM_controllers/existing_scripts_archive/manual_controller2.py:180-187 | the module-level `on_press` adds the key |
| Manual.HeldKeys.OnRelease | RM_controllers/existing_scripts_archive/manual_controller2.py:189-197 | the module-level `on_release` removes a held key, otherwise clears the set |
| Manual.HeldKeys.Remove | RM_controllers/existing_scripts_archive/sticky_controller.py:149-153 | `current_keys.remove(key)` succeeds iff the key is held (KeyError otherwise) and removes just it |
| ControllerV3.ManualController.constructor | RM_controllers/manual_controller/manual_controller_v3.py:46-113 | link ids are the registered ids in increasing order; the tables and the held keys start empty |
| ControllerV3.ManualController.Reset | RM_controllers/manual_controller/manual_controller_v3.py:115-119 | `reset` empties `link_states`, `link_states_pretty` and `current_keys` |
| ControllerV3.ManualController.OnPress | RM_controllers/manual_controller/manual_controller_v3.py:361-371 | a held key changes nothing; a new key is added; a new 's' resets instead |
| ControllerV3.ManualController.OnRelease | RM_controllers/manual_controller/manual_controller_v3.py:373-383 | removes a held key, otherwise clears the set |
| ControllerV3.ManualController.CommandParse | RM_controllers/manual_controller/manual_controller_v3.py:131-293 | scans the keys, then stores and replays or executes as `Dispatch` describes |
| ControllerV3.ZeroSelectsLastLink | RM_controllers/manual_controller/manual_controller_v3.py:156-157 | digit '0' selects index −1, so it commands the last link |
| ControllerV3.DigitBeyondLinksRaises | RM_controllers/manual_controller/manual_controller_v3.py:349-359 | a digit beyond the number of links raises in `_set_link_pos` before anything is sent |
| Controller2.AgreesWithV3OnCharacters | RM_controllers/existing_scripts_archive/manual_controller2.py:58-79 | on character keys, reading `str(k)[1:-1]` scans the same as the v3 controller |
| Controller2.VirtualKeySelects | RM_controllers/existing_scripts_archive/manual_controller2.py:60-64 | a key code with a number (`<code>`) selects index code − 1 here, but nothing in the v3 controller |
| Controller2.ManualController.constructor | RM_controllers/existing_scripts_archive/manual_controller2.py:23-40 | sorted registered ids, empty tables, the sticky flag from the mode |
| Controller2.ManualController.CommandParse | RM_controllers/existing_scripts_archive/manual_controller2.py:50-117 | stores for the sorted selection and replays (sticky), or executes once; an invalid command stores nothing |
| ControllerV4.EndEffectorsAsWritten | RM_controllers/manual_controller/manual_controller_v4.py:43-45 | the constructor loop only appends to the list it walks |
| ControllerV4.EndEffectorIndices | RM_controllers/manual_controller/manual_controller_v4.py:43-45 | exactly the indices whose id is an end effector, in increasing order |
| ControllerV4.EndEffectorAliasing | RM_controllers/manual_controller/manual_controller_v4.py:43-45 | ids [1,2,3] with end effector 2: the list as written becomes [2, 1] and a contraction drives servo 0 of link 3 to 0 |
| ControllerV4.SplitMembers | RM_controllers/manual_controller/manual_controller_v4.py:207-208 | an index is regular iff selected and not an end effector, and an end effector iff selected and one |
| ControllerV4.SplitStep | RM_controllers/manual_controller/manual_controller_v4.py:207-208 | the comprehensions take the selection one element at a time, in order |
| ControllerV4.SplitSelection | RM_controllers/manual_controller/manual_controller_v4.py:205-208 | the loop computes both comprehensions |
| ControllerV4.SplitIsPartition | RM_controllers/manual_controller/manual_controller_v4.py:205-215 | together the two groups are the selection, each index as often as selected |
| ControllerV4.PosMapAgrees | RM_controllers/manual_controller/manual_controller_v4.py:228-243 | the `pos_map.get(…, (None, None))` table equals the branching table of the other controllers |
| ControllerV4.FullTargetsEverywhere | RM_controllers/manual_controller/manual_controller_v4.py:217-226 | full targets reach every index unchanged |
| ControllerV4.ContractSplit | RM_controllers/manual_controller/manual_controller_v4.py:205-215 | contracting both servos sends (22, 22) to each regular link first, then (0, 22) to each end effector |
| ControllerV4.FirstFault | RM_controllers/manual_controller/manual_controller_v4.py:98-117 | evaluating reads in order raises nothing iff no read raises, and otherwise raises what one of the reads raises |
| ControllerV4.FaultAt | RM_controllers/manual_controller/manual_controller_v4.py:98-117 | when every read before position i succeeds, the evaluation raises what read i raises |
| ControllerV4.FirstFaultAppend | RM_controllers/manual_controller/manual_controller_v4.py:98-117 | evaluating two lists of reads in a row raises what the first raises, else what the second raises |
| ControllerV4.NoTetrahedronRaises | RM_controllers/manual_controller/manual_controller_v4.py:58-60 | without a tetrahedron (`self.tetrahedron` is None), building `key_actions` raises `AttributeError` at line 99 |
| ControllerV4.NoLinkRaises | RM_controllers/manual_controller/manual_controller_v4.py:99 | with a tetrahedron but no link, `self.links[-1]` raises `IndexError` at line 99 |
| ControllerV4.TetrahedronRaises | RM_controllers/manual_controller/manual_controller_v4.py:98-117 | with a tetrahedron and a link, the topple entries evaluate and `self.diamond_with_a_tail.crawl` raises `AttributeError` at line 103 |
| ControllerV4.KeyActionsRaise | RM_controllers/manual_controller/manual_controller_v4.py:98-117 | for every substructure and number of links, which read of the `key_actions` display raises: line 99 (no tetrahedron, or no link) or line 103 |
| ControllerV4.DictDisplay | RM_controllers/manual_controller/manual_controller_v4.py:172 | a dictionary display is built iff every key is hashable, and otherwise raises `TypeError` at its line |
| ControllerV4.DictDisplayContents | RM_controllers/manual_controller/manual_controller_v4.py:172 | a built dictionary holds exactly the keys written, each with the value of its last entry |
| ControllerV4.Subscript | RM_controllers/manual_controller/manual_controller_v4.py:173 | `d[k]` succeeds iff k is hashable and present, giving the stored value |
| ControllerV4.ServoChoiceRaises | RM_controllers/manual_controller/manual_controller_v4.py:172-173 | with the list keys as written, building `param_dict` raises `TypeError` at line 172 whatever arrows are held |
| ControllerV4.ServoChoiceWithTuples | RM_controllers/manual_controller/manual_controller_v4.py:172-173 | with tuple keys the lookup gives the v3 arrow table whenever an arrow is held, and raises `KeyError` with none held |
| ControllerV4.AsWrittenNeverCommands | RM_controllers/manual_controller/manual_controller_v4.py:88-190 | for every setup and arrow state, `_command_parse` as written raises while building its gait table, and building its servo table would raise too, so no link is commanded |
| ControllerV4.ManualController.constructor | RM_controllers/manual_controller/manual_controller_v4.py:31-74 | sorted registered ids, the end-effector indices, empty tables and keys |
| ControllerV4.ManualController.Reset | RM_controllers/manual_controller/manual_controller_v4.py:76-79 | `reset` empties all three collections |
| ControllerV4.ManualController.OnPress | RM_controllers/manual_controller/manual_controller_v4.py:245-253 | a held key changes nothing; a new key is added; a new 's' resets |
| ControllerV4.ManualController.OnRelease | RM_controllers/manual_controller/manual_controller_v4.py:255-263 | removes a held key, otherwise clears the set |
| ControllerV4.ManualController.ExecuteState | RM_controllers/manual_controller/manual_controller_v4.py:205-226 | regular links with minimum 22, then end effectors with minimum 0, each filled from its own previous pair |
| ControllerV4.ManualController.ExecuteStickyStates | RM_controllers/manual_controller/manual_controller_v4.py:200-203 | each stored request is executed on its own link through the split |
| ControllerV4.ManualController.CommandParse | RM_controllers/manual_controller/manual_controller_v4.py:88-190 | the corrected parse: stores for the sorted selection and replays, or executes once, as `DispatchV4` describes |
| PickingUp.ContractSends | RM_controllers/existing_scripts_archive/tetrahedron_picking_up_link.py:45-47 | `contract` sends one command per own link |
| PickingUp.LastPairAppend | RM_controllers/existing_scripts_archive/tetrahedron_picking_up_link.py:49-78 | the last pair a link is sent over two phases is its last pair in the second phase, if any, else in the first |
| PickingUp.ContractLeavesMin | RM_controllers/existing_scripts_archive/tetrahedron_picking_up_link.py:45-47 | after `contract` each own link was last sent (22, 22), and no other link was sent anything |
| PickingUp.ToppleLeaves | RM_controllers/existing_scripts_archive/tetrahedron_picking_up_link.py:49-78 | after `topple` own links are contracted, the tail (if not an own link) is left at (100, 22), and links outside the roles are never commanded |
| PickingUp.NotSentNone | RM_controllers/existing_scripts_archive/tetrahedron_picking_up_link.py:49-78 | a link no command addresses has no last pair |
| PickingUp.FlipSwapsUb | RM_controllers/existing_scripts_archive/tetrahedron_picking_up_link.py:64-67 | `flip` changes only the ub push, (100, 90) instead of (90, 100) |
| PickingUp.PickUpOrder | RM_controllers/existing_scripts_archive/tetrahedron_picking_up_link.py:171-173 | the `[4, 3, 2, 1, 0, 5]` order hands over six links, exactly the given ones |
| PickingUp.PickUpOrderTwice | RM_controllers/existing_scripts_archive/tetrahedron_picking_up_link.py:171-173 | applying the order twice gives the links back, so each is handed over once |
| PickingUp.Tetrahedron.constructor | RM_controllers/existing_scripts_archive/tetrahedron_picking_up_link.py:29-43 | keeps the ids, the positions and the wire |
| PickingUp.Tetrahedron.Contract | RM_controllers/existing_scripts_archive/tetrahedron_picking_up_link.py:45-47 | sends exactly `ContractSends` |
| PickingUp.Tetrahedron.Topple | RM_controllers/existing_scripts_archive/tetrahedron_picking_up_link.py:49-78 | succeeds iff there are six roles; sends the expand, push, tail and contract commands in order and returns True |
| PickingUp.NewTetrahedron | RM_controllers/existing_scripts_archive/tetrahedron_picking_up_link.py:34-43 | without ids it builds over the sorted registered ids; an explicit list must have six registered ids |
| PickingUp.PickUpLeaves | RM_controllers/existing_scripts_archive/tetrahedron_picking_up_link.py:167-175 | the 'b' gait leaves the six links contracted and the last link lifted at (100, 22) |
| PickingUp.ManualController.constructor | RM_controllers/existing_scripts_archive/tetrahedron_picking_up_link.py:98-121 | sorted ids, a tetrahedron over the first six, empty tables, finished |
| PickingUp.ManualController.RunGait | RM_controllers/existing_scripts_archive/tetrahedron_picking_up_link.py:161-175 | the 't' or 'b' gait sends its commands and leaves the controller finished |
| PickingUp.ManualController.RunGaits | RM_controllers/existing_scripts_archive/tetrahedron_picking_up_link.py:142-181 | gaits held in one scan run in key order |
| PickingUp.ManualController.CommandParse | RM_controllers/existing_scripts_archive/tetrahedron_picking_up_link.py:133-219 | gaits first, then the sticky store and replay or single execution of the scan |
| PickingUp.GaitSendsSplit | RM_controllers/existing_scripts_archive/tetrahedron_picking_up_link.py:142-181 | the commands of a sequence of gaits are those of its prefix followed by those of its last gait |
| PickingUp.NewController | RM_controllers/existing_scripts_archive/tetrahedron_picking_up_link.py:98-121 | a controller exists iff at least six links are registered (fewer raises building the tetrahedron) |
| Sticky.Targets | RM_controllers/existing_scripts_archive/sticky_controller.py:108-131 | expand drives the servos `param` names to 100; every other servo goes to 0 |
| Sticky.TargetsAreTableWithZero | RM_controllers/existing_scripts_archive/sticky_controller.py:108-131 | that pair is the shared target table with minimum 0, unset servos filled with 0 |
| Sticky.SendLoopMeaning | RM_controllers/existing_scripts_archive/sticky_controller.py:133-135 | each index sends the pair to its link; the loop finishes iff every index is valid for both the links and the logged id list |
| Sticky.SendOneIndex | RM_controllers/existing_scripts_archive/sticky_controller.py:133-135 | one valid index sends exactly one command |
| Sticky.Next | RM_controllers/existing_scripts_archive/sticky_controller.py:92-96 | an invalid command keeps `last_command`; a valid one replaces it with the sorted selection and its request |
| Sticky.TickSendsOnePair | RM_controllers/existing_scripts_archive/sticky_controller.py:92-135 | every tick sends one pair, to the links of the command in force |
| Sticky.InvalidTickRepeats | RM_controllers/existing_scripts_archive/sticky_controller.py:92-97 | an invalid tick after any tick repeats that tick exactly |
| Sticky.IdleUntilValid | RM_controllers/existing_scripts_archive/sticky_controller.py:42-97 | until a valid command, every tick replays the initial empty command and sends nothing |
| Sticky.HeldAfterValid | RM_controllers/existing_scripts_archive/sticky_controller.py:92-97 | invalid ticks keep `last_command` |
| Sticky.StickyController.constructor | RM_controllers/existing_scripts_archive/sticky_controller.py:22-43 | sorted registered ids, logged ids [0, 11, 21], targets (0, 0), the initial command |
| Sticky.StickyController.SetLinkPos | RM_controllers/existing_scripts_archive/sticky_controller.py:108-135 | stores the pair in `srv0_pos`/`srv1_pos` and sends it to every index |
| Sticky.StickyController.CommandParse | RM_controllers/existing_scripts_archive/sticky_controller.py:52-97 | one tick: update `last_command` and send its pair |
| Sticky.NoModeKeyReplays | RM_controllers/existing_scripts_archive/sticky_controller.py:67-72 | without up or down held, the last command is replayed |
| Sticky.ScanOneUpLeft | RM_controllers/existing_scripts_archive/sticky_controller.py:61-84 | keys 1, up, left select index 1 with state 1, mode 1, left arrow |
| Sticky.OneUpLeft | RM_controllers/existing_scripts_archive/sticky_controller.py:52-135 | those keys send (100, 0) to the second link and become the last command |
| Tetra.SetLinks | RM_controllers/manual_controller/cl_tetrahedron.py:16-20 | `set_links` succeeds iff given three links, and stores them and the turning flag |
| Tetra.Edges | RM_controllers/manual_controller/cl_tetrahedron.py:67-72 | six edges, from the first six ids |
| Tetra.Built | RM_controllers/manual_controller/cl_tetrahedron.py:60-79 | four vertices |
| Tetra.BuiltIsWellFormed | RM_controllers/manual_controller/cl_tetrahedron.py:74-79 | every `set_links` call of the constructor succeeds |
| Tetra.EdgesAtTheirEnds | RM_controllers/manual_controller/cl_tetrahedron.py:67-79 | each of the six links is listed at exactly its two end vertices |
| Tetra.LinksAt | RM_controllers/manual_controller/cl_tetrahedron.py:294-302 | a vertex's own link list |
| Tetra.Far | RM_controllers/manual_controller/cl_tetrahedron.py:320-321 | the end of a link that is not the given vertex |
| Tetra.Ids | RM_controllers/manual_controller/cl_tetrahedron.py:323 | the list of link ids |
| Tetra.FindShared | RM_controllers/manual_controller/cl_tetrahedron.py:323-329 | the first link of the list whose id is listed, or none when no link is |
| Tetra.Classify | RM_controllers/manual_controller/cl_tetrahedron.py:336-344 | bl and br are found among the links at ub's bottom vertex, other than ub |
| Tetra.ClassifyStep | RM_controllers/manual_controller/cl_tetrahedron.py:337-344 | one turn of that loop sets bl or br only to the current link |
| Tetra.RolesOf | RM_controllers/manual_controller/cl_tetrahedron.py:291-346 | fails with a bad direction iff the direction is not a Python index of three; ub, ul and ur are links at the top |
| Tetra.FlipsOfFittingRoles | RM_controllers/manual_controller/cl_tetrahedron.py:349-359 | the flags say whether servo 0 of ub, ul, ur is away from the top and servo 0 of bl, br away from ub's bottom vertex |
| Tetra.PoseTop1Dir0 | RM_controllers/manual_controller/cl_tetrahedron.py:291-366 | on the built graph, top 1, direction 0: the roles and flags are the table entry |
| Tetra.FitTop1Dir0 | RM_controllers/manual_controller/cl_tetrahedron.py:291-366 | that entry is six distinct links in the tetrahedron's geometry |
| Tetra.PoseTop1Dir1 | RM_controllers/manual_controller/cl_tetrahedron.py:291-366 | the same for top 1, direction 1 |
| Tetra.FitTop1Dir1 | RM_controllers/manual_controller/cl_tetrahedron.py:291-366 | the same for top 1, direction 1 |
| Tetra.PoseTop1Dir2 | RM_controllers/manual_controller/cl_tetrahedron.py:291-366 | the same for top 1, direction 2 |
| Tetra.FitTop1Dir2 | RM_controllers/manual_controller/cl_tetrahedron.py:291-366 | the same for top 1, direction 2 |
| Tetra.PoseTop2Dir0 | RM_controllers/manual_controller/cl_tetrahedron.py:291-366 | the same for top 2, direction 0 |
| Tetra.FitTop2Dir0 | RM_controllers/manual_controller/cl_tetrahedron.py:291-366 | the same for top 2, direction 0 |
| Tetra.PoseTop2Dir1 | RM_controllers/manual_controller/cl_tetrahedron.py:291-366 | the same for top 2, direction 1 |
| Tetra.FitTop2Dir1 | RM_controllers/manual_controller/cl_tetrahedron.py:291-366 | the same for top 2, direction 1 |
| Tetra.PoseTop2Dir2 | RM_controllers/manual_controller/cl_tetrahedron.py:291-366 | the same for top 2, direction 2 |
| Tetra.FitTop2Dir2 | RM_controllers/manual_controller/cl_tetrahedron.py:291-366 | the same for top 2, direction 2 |
| Tetra.PoseTop3Dir0 | RM_controllers/manual_controller/cl_tetrahedron.py:291-366 | the same for top 3, direction 0 |
| Tetra.FitTop3Dir0 | RM_controllers/manual_controller/cl_tetrahedron.py:291-366 | the same for top 3, direction 0 |
| Tetra.PoseTop3Dir1 | RM_controllers/manual_controller/cl_tetrahedron.py:291-366 | the same for top 3, direction 1 |
| Tetra.FitTop3Dir1 | RM_controllers/manual_controller/cl_tetrahedron.py:291-366 | the same for top 3, direction 1 |
| Tetra.PoseTop3Dir2 | RM_controllers/manual_controller/cl_tetrahedron.py:291-366 | the same for top 3, direction 2 |
| Tetra.FitTop3Dir2 | RM_controllers/manual_controller/cl_tetrahedron.py:291-366 | the same for top 3, direction 2 |
| Tetra.PoseTop4Dir0 | RM_controllers/manual_controller/cl_tetrahedron.py:291-366 | the same for top 4, direction 0 |
| Tetra.FitTop4Dir0 | RM_controllers/manual_controller/cl_tetrahedron.py:291-366 | the same for top 4, direction 0 |
| Tetra.PoseTop4Dir1 | RM_controllers/manual_controller/cl_tetrahedron.py:291-366 | the same for top 4, direction 1 |
| Tetra.FitTop4Dir1 | RM_controllers/manual_controller/cl_tetrahedron.py:291-366 | the same for top 4, direction 1 |
| Tetra.PoseTop4Dir2 | RM_controllers/manual_controller/cl_tetrahedron.py:291-366 | the same for top 4, direction 2 |
| Tetra.FitTop4Dir2 | RM_controllers/manual_controller/cl_tetrahedron.py:291-366 | the same for top 4, direction 2 |
| Tetra.NegativeDirection | RM_controllers/manual_controller/cl_tetrahedron.py:294-302 | a negative direction −3…−1 picks the same roles as direction + 3 |
| Tetra.PoseOnBuilt | RM_controllers/manual_controller/cl_tetrahedron.py:291-366 | on the built graph with distinct ids, at every top vertex and direction, no assert fires, the six roles are distinct links in the right geometry, and the flags mean what they say |
| Tetra.PoseOnBuiltAt1 | RM_controllers/manual_controller/cl_tetrahedron.py:291-366 | the same for top vertex 1 |
| Tetra.PoseOnBuiltAt2 | RM_controllers/manual_controller/cl_tetrahedron.py:291-366 | the same for top vertex 2 |
| Tetra.PoseOnBuiltAt3 | RM_controllers/manual_controller/cl_tetrahedron.py:291-366 | the same for top vertex 3 |
| Tetra.PoseOnBuiltAt4 | RM_controllers/manual_controller/cl_tetrahedron.py:291-366 | the same for top vertex 4 |
| Tetra.SetAllCommands | RM_controllers/manual_controller/tetrahedron.py:87-90 | `(p, p)` goes to every link not excluded, and to no other link |
| Tetra.SetAllNothingExcluded | RM_controllers/manual_controller/tetrahedron.py:87-90 | with nothing excluded every link is sent `(p, p)`, in order |
| Tetra.DistinctIdsPose | RM_controllers/manual_controller/tetrahedron.py:168-220 | the pose of the built graph never fails when the ids are distinct |
| Tetra.LinksAtTouch | RM_controllers/manual_controller/tetrahedron.py:62-65 | every link listed at a vertex has that vertex as one of two distinct ends |
| Tetra.IncreasingIsDistinct | RM_controllers/manual_controller/tetrahedron.py:41 | sorted registered ids are distinct |
| Tetra.Tetrahedron.constructor | RM_controllers/manual_controller/cl_tetrahedron.py:32-103 | the graph is built, vertex 1 is on top, the first goal is unset, nothing is sent |
| Tetra.Tetrahedron.CalculatePose | RM_controllers/manual_controller/cl_tetrahedron.py:291-366 | returns the pose of the current top vertex |
| Tetra.Tetrahedron.Topple | RM_controllers/manual_controller/cl_tetrahedron.py:369-389 | the top moves to ub's far end, a different vertex; a failing pose leaves it in place |
| Tetra.Tetrahedron.SetAll | RM_controllers/manual_controller/cl_tetrahedron.py:111-114 | appends exactly `SetAllCommands` |
| Tetra.Tetrahedron.Contract | RM_controllers/manual_controller/cl_tetrahedron.py:107-108 | every link is sent (22, 22), in order |
| Tetra.Tetrahedron.Crawl | RM_controllers/manual_controller/cl_tetrahedron.py:118-138 | the pose is taken for direction 0 once the first goal is reached; the links are contracted afterwards |
| Tetra.ChooseIds | RM_controllers/manual_controller/cl_tetrahedron.py:45-55 | sorted registered ids without a list; an explicit list must have six ids, all registered |
| Tetra.NewTetrahedron | RM_controllers/manual_controller/tetrahedron.py:28-79 | construction succeeds with enough registered links, and for any six distinct registered ids |
| Toppling.Neg | RM_controllers/existing_scripts_archive/toppling_tetrahedron.py:87 | `not` flips the orientation and keeps the link |
| Toppling.SlotIsEdge | RM_controllers/existing_scripts_archive/toppling_tetrahedron.py:15-22 | every slot is one of the six edges |
| Toppling.Built | RM_controllers/existing_scripts_archive/toppling_tetrahedron.py:14-22 | the constructor fills all six slots |
| Toppling.OneTipRoles | RM_controllers/existing_scripts_archive/toppling_tetrahedron.py:86-93 | six roles |
| Toppling.OneTipped | RM_controllers/existing_scripts_archive/toppling_tetrahedron.py:97-105 | the rewritten map fills all six slots |
| Toppling.TwoTipRoles | RM_controllers/existing_scripts_archive/toppling_tetrahedron.py:113-120 | six roles |
| Toppling.TwoTipped | RM_controllers/existing_scripts_archive/toppling_tetrahedron.py:124-132 | the rewritten map fills all six slots |
| Toppling.OneTipBySlot | RM_controllers/existing_scripts_archive/toppling_tetrahedron.py:97-105 | each new slot takes the entry of one old slot, negated for 01, 02, 23, 31; the source map is an involution |
| Toppling.TwoTipBySlot | RM_controllers/existing_scripts_archive/toppling_tetrahedron.py:124-132 | each new slot takes the entry of one old slot, negated for 02, 12, 31; the source map is an involution |
| Toppling.OneTipRolesAreSlots | RM_controllers/existing_scripts_archive/toppling_tetrahedron.py:86-93 | role k is slot k of (31, 12, 23, 01, 03, 02), negated for roles 0 and 2; each slot is exactly one role |
| Toppling.TwoTipRolesAreSlots | RM_controllers/existing_scripts_archive/toppling_tetrahedron.py:113-120 | role k is slot k of (12, 23, 31, 02, 01, 03), negated for role 0 only; each slot is exactly one role |
| Toppling.OneTipKeepsLinks | RM_controllers/existing_scripts_archive/toppling_tetrahedron.py:97-105 | every link moves to exactly one slot: the link of slot s goes to its source slot and back |
| Toppling.TwoTipKeepsLinks | RM_controllers/existing_scripts_archive/toppling_tetrahedron.py:124-132 | the same for `two_tip` |
| Toppling.OneTipTwice | RM_controllers/existing_scripts_archive/toppling_tetrahedron.py:97-105 | `one_tip` twice gives back the original map |
| Toppling.TwoTipTwice | RM_controllers/existing_scripts_archive/toppling_tetrahedron.py:124-132 | `two_tip` twice negates only slots 03 and 12; four times gives back the original map |
| Toppling.ContractAll | RM_controllers/existing_scripts_archive/toppling_tetrahedron.py:78-79 | one command per role |
| Toppling.ContractAllMeaning | RM_controllers/existing_scripts_archive/toppling_tetrahedron.py:78-79 | the i-th contraction command is (16, 16) to role i's link |
| Toppling.TipRole | RM_controllers/existing_scripts_archive/toppling_tetrahedron.py:24-80 | the role each of the 13 commands addresses |
| Toppling.TipPlan | RM_controllers/existing_scripts_archive/toppling_tetrahedron.py:24-80 | `tip` sends 13 commands; each oriented one is its base pair, swapped when its role's orientation flag is set |
| Toppling.FlagSwapsOwnCommands | RM_controllers/existing_scripts_archive/toppling_tetrahedron.py:38-75 | negating one role's flag mirrors exactly that role's oriented commands and leaves every other command |
| Toppling.Tetrahedron.constructor | RM_controllers/existing_scripts_archive/toppling_tetrahedron.py:14-22 | the map holds the six links with orientation 0 |
| Toppling.Tetrahedron.Tip | RM_controllers/existing_scripts_archive/toppling_tetrahedron.py:24-80 | sends exactly `TipSends` |
| Toppling.Tetrahedron.Orient | RM_controllers/existing_scripts_archive/toppling_tetrahedron.py:38-75 | sends exactly the seven oriented commands `OrientedSends`, in source order |
| Toppling.Tetrahedron.SwingFront | RM_controllers/existing_scripts_archive/toppling_tetrahedron.py:37-47 | the base-expanding step sends exactly the first three of `OrientedSends` |
| Toppling.Tetrahedron.SwingBack | RM_controllers/existing_scripts_archive/toppling_tetrahedron.py:51-74 | the topple, upright and symmetry steps send exactly the last four of `OrientedSends` |
| Toppling.Tetrahedron.ContractRoles | RM_controllers/existing_scripts_archive/toppling_tetrahedron.py:78-79 | the final contraction loop |
| Toppling.Tetrahedron.OneTip | RM_controllers/existing_scripts_archive/toppling_tetrahedron.py:82-107 | tips on the one-tip roles, then rewrites the map as `OneTipped` |
| Toppling.Tetrahedron.TwoTip | RM_controllers/existing_scripts_archive/toppling_tetrahedron.py:109-134 | tips on the two-tip roles, then rewrites the map as `TwoTipped` |

## Left out

- Sockets, threads, the listening loop of `LinkServer.run` and its thread start-up are not modelled. A socket is replaced by a `Connection` holding the bytes still to read and the frames written.
- `get_server_time` and `get_server_time_raw` read the clock. The start epoch is a parameter.
- Logging, `print` and `safe_print` are left out. They change no state.
- Sleeps and timed waits in the gaits are left out. Only the order of commands is kept.
- Events are left out. This covers the threading event of the tetrahedron crawl and the controller's `event`.
- Plotting through a pipe to a separate process is left out. The plot pose is computed and returned instead.
- The gaits other than picking up and toppling are not part of this model: `execute_topple`, `crawl_forward`/`crawl_backward`, `rotate`, the ratchet crawls, and the DWAT, Triangle and SingleLink structures. They are timed sequences of position commands.
- `Tetra.Tetrahedron.Crawl`: only the direction choice (`first_goal`) and the final contraction are modelled; the crawl gait between them is left out, as above.
- The numlock branches of the v3 parser are left out, because its `is_numlock_on` always returns False (manual_controller_v3.py:385-388).
- ControllerV4.ManualController.CommandParse: the numlock branches of the v4 parser (manual_controller_v4.py:125-128 and 161-169) are left out. The v4 `is_numlock_on` reads the keyboard LEDs (lines 265-269), so these branches can run. As written, `_command_parse` raises at line 99 or 103 before reaching them. In the corrected parse they only set the single-link crawl direction and start or stop single-link crawl threads, which are gaits left out above. The corrected parse models the controller with numlock off.
- Reading the keyboard device under `/dev/input` is left out.
- The Esc key stopping the keyboard listener is not modelled. Releasing Esc edits the key set like any other key.
- A held key is abstract: a character, a key code with a number, or an arrow.
  - `str.isdigit` accepts non-ASCII digits. Only '0'-'9' are treated as digits here.
- `Vertex.set_links`: vertices are configured only while the graph is built, so vertices are values and `set_links` is a function returning the configured vertex.
- `Toppling.OneTipKeepsLinks`, `Toppling.TwoTipKeepsLinks`: "the rewrite is a permutation" is stated as an involutive source table and a role table with an inverse, not as a multiset equality.
- `LinkNet.RobotLink.Serve`: the loop is bounded by the bytes waiting. The end of input closes the session, where the socket would block.
- The dashboard, retina and closed-loop controllers belong to the repository but are not part of this model.
- The v4 `_command_parse`, as written, raises before reaching any link; see Findings. Its corrected form, `ControllerV4.ManualController.CommandParse`, is modelled with the v3 key handling and the v4 split.

## Findings

| source | as written | input that shows it | evidently intended | confidence | as-written member | corrected member |
|---|---|---|---|---|---|---|
| RM_controllers/manual_controller/manual_controller_v4.py:43-45 | the end-effector loop appends to `self.end_effectors`, the list passed in (a mutable default), and stores link ids where indices are expected | ids [1, 2, 3], end effectors [2]: the list becomes [2, 1], and index 2 (link 3) is contracted to 0 as if it were an end effector | record the index of each link whose id is an end effector | high, not executed | ControllerV4.EndEffectorAliasing | ControllerV4.EndEffectorIndices |
| RM_controllers/manual_controller/manual_controller_v4.py:98-117 | `key_actions` evaluates `self.tetrahedron.topple` and friends eagerly | any substructure other than "Tetrahedron": `self.tetrahedron` is None, so attribute access raises at line 99 on every call; with a tetrahedron, `self.diamond_with_a_tail` is None and line 103 raises | bind the actions lazily | high, not executed | ControllerV4.KeyActionsRaise | ControllerV4.ManualController.CommandParse |
| RM_controllers/manual_controller/manual_controller_v4.py:172-173 | `param_dict` is a dict literal keyed by lists | any key set reaching line 172: building the dict raises TypeError (unhashable list) | map the arrow pair to param 2, 0 or 1 | high, not executed | ControllerV4.ServoChoiceRaises | Manual.ParamOf |
