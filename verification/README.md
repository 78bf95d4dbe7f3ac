# Paparazzi airborne code: a verified model

This project models the parts of the Paparazzi autopilot that carry the most logic and
proves what they promise: the fragmenting SPI stream, the framed byte protocols with their
checksums, the covariance of two altitude filters, the rotation algebra, the fixed-point
trigonometry, and the arming and mixing of the Mercury vehicle.

| file | what it models |
|---|---|
| `spi_stream.dfy` | sender, receiver and link of the SPI message stream |
| `spi_stream_loss.dfy` | the same with lost packages |
| `crc8.dfy` | CRC-8 and the check in `spi_link_send` |
| `fletcher.dfy` | the 8-bit Fletcher sums shared by the three byte protocols |
| `pprz_transport.dfy` | pprz frames: writer, parser, soundness, datalink event |
| `ubx.dfy` | UBX frames: writer, parser, GPS event |
| `udp_transport.dfy` | batching writer and the logger that reads its datagrams |
| `linear_algebra.dfy`, `alt_vfilter.dfy`, `alt_kalman.dfy` | covariance of the two altitude filters |
| `rotation.dfy` | quaternions, rotation matrices, Euler angles, reorthogonalisation |
| `rmat_round_trip.dfy` | from rotation matrix to quaternion and back |
| `fixed_point.dfy` | integer square root, angle folding, sine table, arc tangent |
| `motor_mixing.dfy`, `mercury_ap.dfy` | mixer, arming, kill, propeller speeds |
| `byte_streams.dfy` | what a byte-at-a-time parser has been given |
| `c_ints.dfy` | C integer widths, wrap-around and truncating division |

Code that changes state in place is a class or a method on an array, proved to compute a
function of the old state; the promises are then proved about that function, over every
input and every run. `dafny verify dfyconfig.toml` checks everything.

What was found where code and expectation differ:

- The guard of `spistream_enqueue_msg` asks for less room than the message needs
  (`SpiStreamSender.RingKeptIffRoom` gives the exact condition). With
  WAIT_FOR_READ, which its comment (`lisa_spistream.h:258`) says rejects messages when the
  buffer is full, it is enough for messages of one or two packages only
  (`SpiStreamSender.WaitForReadSufficesIff`).
- The maximum message length of the SPI stream is 720 bytes, but the receive buffer takes only
  whole packages, so at most 704 (`SpiStreamProtocol.MessageInBoundsIff`).
- `INT32_SQRT` divides by zero for 2^32 - 1 and for no other input.
- The comments of `alt_vfilter.c` describe a transition matrix with a -dt^2/2 element and
  R = 0.1. The code has neither, and the model follows the code.
- The UDP length the logger walks over includes the 8-byte UDP header, so it reads up to 8
  bytes past the datagram. `OnboardLogger.DatagramLogged` says exactly when this shows, and
  `OnboardLogger.PhantomLine` is a case: a logged message that was never sent.
- `INT32_ATAN2` never returns 0: for y = 0 and positive x the result is positive.
- The pprz parser takes the length byte of an empty payload for one of 256 bytes, and the UBX
  parser reads a payload byte of an empty message (`PprzParser.FrameVerdict`,
  `UbxParser.FrameVerdict`).
- The UBX parser misses a frame that follows a stray first sync byte (`UbxParser.SyncRule`).
- The offsets of the mixer can wrap in 16 bits, and then the strongest motor can get the least
  command (`MotorMixing.OverflowBreaksOrder`). `MotorMixing.OrderKeptIff` says exactly when the
  order survives, `MotorMixing.SpreadSuffices` when nothing can wrap.

## Model

| member | source | states |
|---|---|---|
| `SpiStreamSender.Sender.constructor` | paparazzi/sw/airborne/lisa/lisa_spistream.h:80-90 | The ring starts empty, with no message sent |
| `SpiStreamSender.Sender.EnqueueMsg` | paparazzi/sw/airborne/lisa/lisa_spistream.h:171-250 | The message is refused exactly as `SpiStreamSender.RefusedIff` says; otherwise the new ring is the old one with every package of the message put in, for all lengths and both flags |
| `SpiStreamSender.Sender.StorePackages` | paparazzi/sw/airborne/lisa/lisa_spistream.h:200-235 | The byte loop stores exactly the packages of the message, padded with zeros, counted down, the last one sign-coded |
| `SpiStreamSender.Sender.WritePkg` | paparazzi/sw/airborne/lisa/lisa_spistream.h:143-164 | The oldest package leaves the ring and the done handler is called after a last package; an empty ring gives the filler |
| `SpiStreamSender.RingIndex` | paparazzi/sw/airborne/lisa/lisa_spistream.h:223-233 | The insert index is (read index + count) modulo 88 |
| `SpiStreamSender.EnqueueQueues` | paparazzi/sw/airborne/lisa/lisa_spistream.h:171-250 | With room, enqueueing appends the fragments of the message to the queue and keeps the ring |
| `SpiStreamSender.RefusedIff` | paparazzi/sw/airborne/lisa/lisa_spistream.h:178-180 | A message is refused if and only if 87 or 88 packages are waiting and NO_WAIT is not given |
| `SpiStreamSender.WaitForReadSufficesIff` | paparazzi/sw/airborne/lisa/lisa_spistream.h:178-235 | WAIT_FOR_READ keeps every ring consistent if and only if the message has at most 64 bytes |
| `SpiStreamSender.RingKeptIffRoom` | paparazzi/sw/airborne/lisa/lisa_spistream.h:179-180 | The ring is kept if and only if a message the guard accepts has room for all its packages |
| `SpiStreamSender.WaitForReadOverruns` | paparazzi/sw/airborne/lisa/lisa_spistream.h:179-180 | A concrete input that the WAIT_FOR_READ guard accepts and that overruns the ring |
| `SpiStreamSender.WriteDequeues` | paparazzi/sw/airborne/lisa/lisa_spistream.h:143-164 | Writing takes the head of the queue, calls the handler exactly for last packages, and leaves an empty ring alone |
| `SpiStreamReceiver.Receiver.ReadPkg` | paparazzi/sw/airborne/lisa/lisa_spistream.h:99-137 | The in-place receiver computes the receive function, handler calls included |
| `SpiStreamReceiver.Receiver.CopyIn` | paparazzi/sw/airborne/lisa/lisa_spistream.h:122-126 | The copy changes exactly the 32 bytes of the package position |
| `SpiStreamProtocol.Assemble` | paparazzi/sw/airborne/lisa/lisa_spistream.h:99-137 | From a ready receiver the packages of a message call the handler once, at the last one, with its id, bytes and length |
| `SpiStreamProtocol.ResyncIff` | paparazzi/sw/airborne/lisa/lisa_spistream.h:99-137 | A whole message after a loss is delivered exactly if and only if it has at least as many packages as the receiver is counting |
| `SpiStreamProtocol.EnqueueInv` | paparazzi/sw/airborne/lisa/lisa_spistream.h:171-250 | The protocol invariant survives an enqueue |
| `SpiStreamProtocol.WriteInv` | paparazzi/sw/airborne/lisa/lisa_spistream.h:143-164 | The protocol invariant survives a write, filler packages included |
| `SpiStreamProtocol.ReadInv` | paparazzi/sw/airborne/lisa/lisa_spistream.h:99-137 | The protocol invariant survives a read |
| `SpiStreamProtocol.RunInv` | paparazzi/sw/airborne/lisa/lisa_spistream.h:99-250 | The invariant holds after every run of the link |
| `SpiStreamProtocol.Delivered` | paparazzi/sw/airborne/lisa/lisa_spistream.h:99-250 | At every point of every run the receive handler got an initial part of the messages, in order, with exact bytes and length; the done handler was called once for each message that has left the ring; the next read is in bounds; nothing is missing once ring and wire are empty |
| `SpiStreamProtocol.EnqueueSends` | paparazzi/sw/airborne/lisa/lisa_spistream.h:178-249 | In every run a message is sent with NO_WAIT or with at most 86 packages waiting, and otherwise nothing changes |
| `SpiStreamProtocol.MessagesAreNumbered` | paparazzi/sw/airborne/lisa/lisa_spistream.h:182-186 | In every run message i has the number 1 + i mod 255, and so has the i-th call of the receive handler |
| `SpiStreamProtocol.DrainDelivers` | paparazzi/sw/airborne/fms/fms_autopilot_msg.h:145-200 | Writing and reading what is pending delivers every message sent so far |
| `SpiStreamLoss.FillersIgnored` | paparazzi/sw/airborne/lisa/lisa_spistream.h:103-105 | Fillers change neither the receiver nor what is delivered |
| `SpiStreamLoss.ResyncAfterLast` | paparazzi/sw/airborne/lisa/lisa_spistream.h:99-137 | After any last package, whatever came before, the next whole message is delivered exactly, with fillers anywhere |
| `SpiStreamLoss.OneCallEach` | paparazzi/sw/airborne/lisa/lisa_spistream.h:128-136 | The receive handler is called exactly once for each last package |
| `SpiStreamLoss.FirstCountdown` | paparazzi/sw/airborne/lisa/lisa_spistream.h:99-137 | Until the next last package the receiver keeps the countdown of the first package |
| `SpiStreamLoss.LossyDelivery` | paparazzi/sw/airborne/lisa/lisa_spistream.h:99-137 | Whatever packages are lost, a message that arrives whole after the intact last package of the one before is delivered exactly, at the place the arrived last packages give it |
| `SpiStreamLoss.WrittenAndQueued` | paparazzi/sw/airborne/lisa/lisa_spistream.h:143-250 | In every run the packages written, without fillers, and those in the ring are all packages of all messages accepted |
| `SpiStreamLoss.LossyRun` | paparazzi/sw/airborne/lisa/lisa_spistream.h:99-250 | The same over every run of the link, losing any of the packages it wrote |
| `SpiStreamProtocol.MessageInBoundsIff` | paparazzi/sw/airborne/lisa/lisa_spistream.h:122-126 | Between messages, every copy of a message stays in the receive buffer if and only if the message has at most 704 bytes; the maximum length given is 720 |
| `Crc8.CalcBlockCrc8` | paparazzi/sw/airborne/fms/fms_spi_link.c:77-89 | The bit loop computes the CRC of the block |
| `Crc8.ShiftByteLinear` | paparazzi/sw/airborne/fms/fms_spi_link.c:81-86 | Eight shifts are linear under exclusive or |
| `Crc8.ShiftByteZero` | paparazzi/sw/airborne/fms/fms_spi_link.c:81-86 | Eight shifts map only zero to zero |
| `Crc8.CrcLinear` | paparazzi/sw/airborne/fms/fms_spi_link.c:77-89 | The CRC of the exclusive or of two equally long blocks is the exclusive or of their CRCs |
| `Crc8.CheckIffZero` | paparazzi/sw/airborne/fms/fms_spi_link.c:61-62 | The receive check passes if and only if the CRC over all bytes, the last included, is zero |
| `Crc8.CrcIsRemainder` | paparazzi/sw/airborne/fms/fms_spi_link.c:77-89 | The CRC is the only byte that makes a block, with it appended, a multiple of x^8 + x^5 + x^4 + 1 |
| `Crc8.CrcOfWindow` | paparazzi/sw/airborne/fms/fms_spi_link.c:77-89 | When the CRC of a block that is zero outside two adjacent bytes vanishes |
| `Crc8.BurstDetected` | paparazzi/sw/airborne/fms/fms_spi_link.c:57-68 | A nonzero error within 8 consecutive bits of a valid block, at any bit position, makes the CRC nonzero |
| `Crc8.CrcParity` | paparazzi/sw/airborne/fms/fms_spi_link.c:77-89 | The CRC has the parity of the block |
| `Crc8.OddErrorDetected` | paparazzi/sw/airborne/fms/fms_spi_link.c:57-68 | An error with an odd number of wrong bits makes the CRC nonzero |
| `SpiLinkTransfer.SpiLink.FillCrc` | paparazzi/sw/airborne/fms/fms_spi_link.c:57-57 | Only the last byte changes, to the CRC of the rest, and the CRC over all becomes zero |
| `SpiLinkTransfer.SpiLink.CheckCrc` | paparazzi/sw/airborne/fms/fms_spi_link.c:61-65 | The comparison holds exactly when the CRC over all bytes is zero |
| `SpiLinkTransfer.SpiLink.Send` | paparazzi/sw/airborne/fms/fms_spi_link.c:44-71 | The last byte out becomes the CRC of the rest, only that byte changes; the valid flag and both counters follow the CRC of what came in |
| `SpiLinkTransfer.TransferChecked` | paparazzi/sw/airborne/fms/fms_spi_link.c:57-68 | A block sent with its CRC is accepted exactly when the error is a multiple of x^8 + x^5 + x^4 + 1: always when undisturbed, never with a burst of up to 8 bits or an odd number of wrong bits |
| `Fletcher.ClosedForms` | paparazzi/sw/airborne/pprz_transport.h:74-78 | The two sums are a plain and a position-weighted sum modulo 256 |
| `Fletcher.TwoChangesUnnoticed` | paparazzi/sw/airborne/pprz_transport.h:74-78 | Two changed bytes leave both sums alone if and only if the changes cancel and distance times change is 0 modulo 256 |
| `Fletcher.OneChangeNoticed` | paparazzi/sw/airborne/pprz_transport.h:74-78 | One changed byte always changes the first sum |
| `Fletcher.OddDistanceNoticed` | paparazzi/sw/airborne/pprz_transport.h:74-78 | Two changed bytes at odd distance always change one of the sums |
| `Fletcher.EvenDistanceUnnoticed` | paparazzi/sw/airborne/pprz_transport.h:74-78 | A concrete pair of changes at distance 2 that neither sum sees |
| `CInts.TruncDivIff` | paparazzi/sw/airborne/math/pprz_algebra_int.h:888-893 | Division by a positive number is rounded toward zero, and only that is |
| `PprzFormat.Writer.Header` | paparazzi/sw/airborne/pprz_transport.h:61-66 | Start byte and length go out, both sums start at the length |
| `PprzFormat.FrameBytes` | paparazzi/sw/airborne/pprz_transport.h:61-78 | A frame is 0x99, its own length modulo 256, the payload, and the plain and the weighted sum of length and payload |
| `PprzFormat.Writer.PutUint8` | paparazzi/sw/airborne/pprz_transport.h:74-78 | The byte goes out and enters the sums |
| `PprzFormat.Writer.PutArray` | paparazzi/sw/airborne/pprz_transport.h:118-135 | The count and the bytes of every element go out and enter the sums |
| `PprzFormat.Writer.Send` | paparazzi/sw/airborne/pprz_transport.h:61-78 | Header, payload and trailer together append exactly the frame of the payload |
| `PprzParser.Parser.ParsePprz` | paparazzi/sw/airborne/pprz_transport.h:154-199 | The in-place parser computes the parse function |
| `PprzParser.ParsesPayload` | paparazzi/sw/airborne/pprz_transport.h:154-182 | Where the parser is after any number of bytes of a frame |
| `PprzParser.FrameVerdict` | paparazzi/sw/airborne/pprz_transport.h:154-199 | A frame of 1 to 256 payload bytes with a right length byte is received exactly when both check bytes match, with its payload; otherwise one error is counted |
| `PprzParser.FrameAccepted` | paparazzi/sw/airborne/pprz_transport.h:61-78 | Every frame of the writer with 1 to 256 payload bytes is received with its payload and no error; 256 shows as length 0 |
| `PprzParser.OverrunCounted` | paparazzi/sw/airborne/pprz_transport.h:163-167 | A frame that starts while a message is pending counts one overrun and one error and changes nothing else |
| `PprzParser.ByteChangeRejected` | paparazzi/sw/airborne/pprz_transport.h:154-199 | A valid frame with one payload byte changed is rejected and counted |
| `PprzParser.TwoByteChangeVerdict` | paparazzi/sw/airborne/pprz_transport.h:154-199 | A valid frame with two payload bytes changed is accepted if and only if both sums cancel |
| `PprzParser.OddPairRejected` | paparazzi/sw/airborne/pprz_transport.h:154-199 | Two payload bytes changed at odd distance are rejected and counted |
| `PprzParser.SwapRejected` | paparazzi/sw/airborne/pprz_transport.h:154-199 | Swapping two unequal neighbouring payload bytes is rejected and counted |
| `PprzSoundness.AlwaysExplained` | paparazzi/sw/airborne/pprz_transport.h:154-199 | In every run the parser state is accounted for by the most recent bytes, and a pending message means at most the start byte has been seen |
| `PprzSoundness.ReceivedOnlyFrames` | paparazzi/sw/airborne/pprz_transport.h:154-199 | Over any byte stream the flag goes up only when the bytes just read are the frame of a payload of 1 to 256 bytes, which the buffer then holds |
| `PprzSoundness.PendingUntouched` | paparazzi/sw/airborne/pprz_transport.h:163-167 | While a message is pending no bytes change its length or payload |
| `Datalink.Link.ReadPprzBuffer` | paparazzi/sw/airborne/pprz_transport.h:213 | The loop reads until the fifo is empty or a message is received |
| `Datalink.Link.PprzParsePayload` | paparazzi/sw/airborne/pprz_transport.h:201-206 | The payload overwrites the start of the datalink buffer, the rest stays |
| `Datalink.Link.DatalinkEvent` | paparazzi/sw/airborne/datalink.h:64-76 | The event macro computes the event function: read, copy, release, handle |
| `Datalink.ReadTracks` | paparazzi/sw/airborne/pprz_transport.h:154-213 | Reading a stream of framed payloads stops with the fifo empty or exactly the next payload received, and counts no error |
| `Datalink.PollInv` | paparazzi/sw/airborne/datalink.h:64-76 | A poll in bounds keeps the invariant, and empties the fifo or hands on one message |
| `Datalink.RestOfBuffer` | paparazzi/sw/airborne/pprz_transport.h:201-206 | A poll changes no byte of the datalink buffer behind the payload it copies |
| `Datalink.StreamDelivered` | paparazzi/sw/airborne/datalink.h:64-76 | However arrivals and polls interleave, the handler gets an initial part of the payloads, each once and in order, the overrun and error counters do not move, and nothing is missing at the end |
| `Datalink.PollsDrain` | paparazzi/sw/airborne/datalink.h:64-76 | Once everything has arrived, as many polls as messages are outstanding hand them all on |
| `Datalink.PollInBoundsIff` | paparazzi/sw/airborne/pprz_transport.h:201-206 | At any point of any stream of frames a poll copies inside the datalink buffer exactly when the payload just received, the next in order, has at most 128 bytes |
| `Datalink.AlwaysInBoundsIff` | paparazzi/sw/airborne/datalink.h:64-76 | Every poll of every run is in bounds if and only if every payload of the stream has at most 128 bytes |
| `UbxFormat.Writer.Header` | paparazzi/sw/airborne/gps_ubx.c:60-67 | Sync bytes, class, id and length in little-endian order go out; all but the sync bytes are summed |
| `UbxFormat.FrameBytes` | paparazzi/sw/airborne/gps_ubx.c:52-67 | A frame is 0xB5, 0x62, class, id, the length low byte first, the payload, and the plain and the weighted sum of all but the sync bytes |
| `UbxFormat.Writer.Send` | paparazzi/sw/airborne/gps_ubx.c:52-67 | Header, payload and trailer together append exactly the frame |
| `UbxParser.Parser.ParseUbx` | paparazzi/sw/airborne/gps_ubx.c:324-391 | The in-place parser computes the parse function and stays in its buffer |
| `UbxParser.AlwaysExplained` | paparazzi/sw/airborne/gps_ubx.c:324-391 | In every run the parser state is accounted for by the most recent bytes, and a pending message means at most the sync bytes have been seen |
| `UbxParser.ReceivedOnlyFrames` | paparazzi/sw/airborne/gps_ubx.c:324-391 | Over any byte stream the flag goes up only when the bytes just read are a whole frame with matching sums, and class, id, length and buffer are that frame's |
| `UbxParser.PendingUntouched` | paparazzi/sw/airborne/gps_ubx.c:341-347 | While a message is pending no bytes change class, id, length or buffer |
| `UbxParser.FrameVerdict` | paparazzi/sw/airborne/gps_ubx.c:324-391 | A frame with right length bytes, of length 0 to 255, is received exactly when both sums match; length 0 takes one payload byte |
| `UbxParser.FrameAccepted` | paparazzi/sw/airborne/gps_ubx.c:52-67 | Every frame of the send macros with 1 to 255 payload bytes is received, with its class, id, length and payload |
| `UbxParser.LongLengthRejected` | paparazzi/sw/airborne/gps_ubx.c:355-363 | A frame is given up after its length bytes if and only if the length is above 255 |
| `UbxParser.OverrunCounted` | paparazzi/sw/airborne/gps_ubx.c:341-347 | A frame that starts while a message is pending counts one overrun, is given up and leaves the message alone |
| `UbxParser.SyncRule` | paparazzi/sw/airborne/gps_ubx.c:330-340 | Behind a first sync byte only the second one goes on, not another first one |
| `UbxParser.ByteChangeRejected` | paparazzi/sw/airborne/gps_ubx.c:324-391 | A frame with one byte changed other than the length is rejected |
| `UbxStream.GpsLink.ReadGpsBuffer` | paparazzi/sw/airborne/gps.h:116-116 | The loop reads until the fifo is empty or a message is pending |
| `UbxStream.GpsLink.GpsEvent` | paparazzi/sw/airborne/gps.h:157-163 | The event macro computes the poll function: read, hand on, release |
| `UbxStream.ReadTracks` | paparazzi/sw/airborne/gps_ubx.c:324-391 | Reading a stream of frames stops with the fifo empty or exactly the next message pending, and counts no overrun |
| `UbxStream.StreamHandled` | paparazzi/sw/airborne/gps.h:157-163 | However a stream of frames and gaps is cut by the polls, the application gets an initial part of the messages, each once and in order, no overrun is counted, and nothing is missing at the end |
| `UbxStream.PollsDrain` | paparazzi/sw/airborne/gps.h:157-163 | Once everything has arrived, every further poll hands on a message until all are handled |
| `UdpFormat.Frame` | paparazzi/sw/airborne/fms/udp_transport2.c:34-57 | The length byte is the frame length if and only if the payload has at most 245 bytes |
| `UdpFormat.FrameBytes` | paparazzi/sw/airborne/fms/udp_transport2.c:34-57 | A frame is 0x98, its length modulo 256, timestamp, ids, payload, and the plain and the weighted sum of all but the start byte |
| `UdpWriter.UdpTransport.Put1Byte` | paparazzi/sw/airborne/fms/udp_transport2.c:7-11 | One byte is appended to the buffered bytes |
| `UdpWriter.UdpTransport.PutBytes` | paparazzi/sw/airborne/fms/udp_transport2.c:25-32 | The bytes are buffered and summed in order |
| `UdpWriter.UdpTransport.Header` | paparazzi/sw/airborne/fms/udp_transport2.c:34-43 | Start byte, then length and timestamp, which are summed from zero |
| `UdpWriter.UdpTransport.StartMessage` | paparazzi/sw/airborne/fms/udp_transport2.c:45-51 | Header for payload plus ids, then the two ids |
| `UdpWriter.UdpTransport.EndMessage` | paparazzi/sw/airborne/fms/udp_transport2.c:53-62 | Both sums are buffered; above the watermark the buffer goes out as one datagram and is emptied |
| `UdpWriter.UdpTransport.Periodic` | paparazzi/sw/airborne/fms/udp_transport2.c:84-91 | A nonempty buffer goes out as one datagram |
| `UdpWriter.UdpTransport.SendMessage` | paparazzi/sw/airborne/fms/udp_transport2.c:45-62 | From at most 1024 buffered bytes a message of any payload length appends exactly its frame, never leaves the buffer, and ends at most 1024 again |
| `UdpWriter.WholeFramesOnly` | paparazzi/sw/airborne/fms/udp_transport2.c:53-62 | In every run each datagram is a nonempty list of whole frames, at most one frame over 1024 bytes, the buffer between messages holds at most 1024, and all groups together are the messages sent, in order |
| `UdpWriter.WrittenWhen` | paparazzi/sw/airborne/fms/udp_transport2.c:53-91 | In every run a message makes one datagram of everything buffered exactly when that exceeds 1024 bytes; a periodic flush empties the buffer |
| `UdpWriter.BytesConserved` | paparazzi/sw/airborne/fms/udp_transport2.c:7-91 | Datagrams followed by the buffer are the concatenation of all frames sent |
| `OnboardLogger.Logger.Sums` | paparazzi/sw/airborne/fms/onboard_logger.c:24-28 | The checksum loop computes the sums of everything before the check bytes |
| `OnboardLogger.Logger.GotPprzMessage` | paparazzi/sw/airborne/fms/onboard_logger.c:11-44 | A message adds one line with its timestamp byte, ids and bytes, or a mismatch exactly as `OnboardLogger.MismatchIff` says |
| `OnboardLogger.Logger.GotPacket` | paparazzi/sw/airborne/fms/onboard_logger.c:76-88 | The loop adds what the frame walk passes on |
| `OnboardLogger.FramesLogged` | paparazzi/sw/airborne/fms/onboard_logger.c:76-88 | A stretch of whole frames is logged message by message, whatever surrounds it |
| `OnboardLogger.MismatchIff` | paparazzi/sw/airborne/fms/onboard_logger.c:22-44 | Any bytes with a true length are logged as a mismatch if and only if the two bytes behind are not their plain and weighted sums |
| `OnboardLogger.ChecksDecide` | paparazzi/sw/airborne/fms/onboard_logger.c:22-44 | The checked bytes of a message and any two bytes behind: its line exactly for its sums, else a mismatch |
| `OnboardLogger.WalkTakes` | paparazzi/sw/airborne/fms/onboard_logger.c:76-88 | At a start byte a length of at least 3 that fits the packet makes a message and any other is skipped |
| `OnboardLogger.DamageLogged` | paparazzi/sw/airborne/fms/onboard_logger.c:22-88 | A frame with one byte changed behind the length, or two summed bytes at odd distance, adds a mismatch and no line |
| `OnboardLogger.DamagedDatagram` | paparazzi/sw/airborne/fms/onboard_logger.c:22-88 | Of a datagram with one damaged frame every other message is logged, the damaged one as a mismatch in its place |
| `OnboardLogger.DatagramLogged` | paparazzi/sw/airborne/fms/onboard_logger.c:71-88 | A datagram of whole frames is logged as exactly its messages if and only if the 8 bytes read past it do not pass for a frame |
| `OnboardLogger.PhantomLine` | paparazzi/sw/airborne/fms/onboard_logger.c:71-88 | Bytes past any datagram that pass for a frame and put a line in the log of a message never sent |
| `OnboardLogger.SentIsLogged` | paparazzi/sw/airborne/fms/onboard_logger.c:11-88 | After any flushed run of the writer the log is one line for each message sent, in order, with its ids and payload |
| `KalmanCovariance.CauchySchwarz` | paparazzi/sw/airborne/alt_vfilter.c:101-134 | The Cauchy-Schwarz inequality for the form of a positive definite covariance |
| `KalmanCovariance.CorrectedQuad` | paparazzi/sw/airborne/alt_vfilter.c:101-134 | A correction lowers the form by (h.Pv)^2 / S |
| `KalmanCovariance.CorrectedPosDef` | paparazzi/sw/airborne/alt_vfilter.c:101-134 | A correction keeps the covariance symmetric positive definite, S is above R, and the form rises in no direction |
| `KalmanCovariance.PredictedPosDef` | paparazzi/sw/airborne/alt_vfilter.c:59-85 | F P F' + Q is symmetric positive definite |
| `KalmanCovariance.CorrectedIsJoseph` | paparazzi/sw/airborne/alt_vfilter.c:101-134 | The correction equals the Joseph form |
| `KalmanCovariance.CorrectedError` | paparazzi/sw/airborne/alt_vfilter.c:104-112 | A measurement with error n moves the error of the state by I - K h', the matrix of the Joseph form, and adds n K |
| `KalmanCovariance.CorrectedResidual` | paparazzi/sw/airborne/alt_vfilter.c:104-112 | A correction leaves R / S of the residual |
| `KalmanCovariance.GainFromCorrected` | paparazzi/sw/airborne/alt_vfilter.c:105-134 | The gain is the corrected covariance times h over R |
| `KalmanCovariance.MovedWithin` | paparazzi/sw/airborne/alt_vfilter.c:59-134 | An error moved by a and disturbed by n along k stays in the ellipsoid of a P a' + r k k', whose scale grows by at most n^2 / r |
| `KalmanCovariance.CorrectedWithin` | paparazzi/sw/airborne/alt_vfilter.c:101-134 | A correction keeps the error in the ellipsoid of the new covariance, whose scale grows by at most n^2 / R |
| `KalmanCovariance.PredictedWithin` | paparazzi/sw/airborne/alt_vfilter.c:59-85 | A prediction keeps the error in the ellipsoid of the new covariance at the same scale |
| `AltVFilter.AltFilter.constructor` | paparazzi/sw/airborne/alt_vfilter.c:28-39 | The state starts as given, the covariance as ten times the identity |
| `AltVFilter.AltFilter.AltVfPredict` | paparazzi/sw/airborne/alt_vfilter.c:59-85 | The element-by-element update is F P F' + Q and the state prediction |
| `AltVFilter.AltFilter.AltVfUpdateZ` | paparazzi/sw/airborne/alt_vfilter.c:101-134 | State and covariance, element by element, are the correction with h = (1, 0, 0), whose effect on the error `KalmanCovariance.CorrectedError` gives |
| `AltVFilter.AltFilter.AltVfUpdateVz` | paparazzi/sw/airborne/alt_vfilter.c:150-181 | State and covariance, element by element, are the correction with h = (0, 1, 0), whose effect on the error `KalmanCovariance.CorrectedError` gives |
| `AltVFilter.StepPosDef` | paparazzi/sw/airborne/alt_vfilter.c:59-181 | One step of any kind keeps the covariance symmetric positive definite; updates raise the form in no direction |
| `AltVFilter.RunPosDef` | paparazzi/sw/airborne/alt_vfilter.c:28-181 | After the start and any sequence of steps with any measurements the covariance is symmetric positive definite, so every divisor is above R |
| `AltVFilter.PredictMoves` | paparazzi/sw/airborne/alt_vfilter.c:60-63 | A prediction moves the estimate as altitude, speed and bias move under the measured acceleration |
| `AltVFilter.StepError` | paparazzi/sw/airborne/alt_vfilter.c:59-181 | What every kind of step does to the error of the estimate: F, or I - K h' plus the gain times the error of the measurement |
| `AltVFilter.UpdateZMovesTowards` | paparazzi/sw/airborne/alt_vfilter.c:104-112 | After an altitude measurement the estimate lies strictly between the old one and the measurement |
| `AltVFilter.UpdateVzMovesTowards` | paparazzi/sw/airborne/alt_vfilter.c:151-159 | After a speed measurement the estimate lies strictly between the old one and the measurement |
| `AltVFilter.RunTracks` | paparazzi/sw/airborne/alt_vfilter.c:28-181 | In every run, with any start and any measurements, the squared errors of altitude, speed and bias are at most their variances times a scale: the initial squared error over 10 plus the squared measurement errors over 2 |
| `AltVFilter.FirstPrediction` | paparazzi/sw/airborne/alt_vfilter.c:59-85 | The covariance after the first prediction, in numbers |
| `AltVFilter.FirstUpdateZ` | paparazzi/sw/airborne/alt_vfilter.c:101-134 | State and covariance after a first altitude measurement, in numbers |
| `AltVFilter.FirstUpdateVz` | paparazzi/sw/airborne/alt_vfilter.c:150-181 | State and covariance after a first speed measurement, in numbers |
| `AltKalmanFilter.Sylvester` | paparazzi/sw/airborne/estimator.c:168-180 | When a 2 by 2 covariance block is positive definite |
| `AltKalmanFilter.StepPosDef` | paparazzi/sw/airborne/estimator.c:144-203 | One call keeps the covariance symmetric positive definite, e is above R, so the correction is made |
| `AltKalmanFilter.GpsRunPosDef` | paparazzi/sw/airborne/estimator.c:144-203 | In every run with the GPS constants the covariance is symmetric positive definite and every correction is made |
| `AltKalmanFilter.StepResidual` | paparazzi/sw/airborne/estimator.c:182-197 | With e more than 1e-5 from zero a call leaves R / e of the residual, otherwise the prediction stands |
| `AltKalmanFilter.StepWithin` | paparazzi/sw/airborne/estimator.c:144-203 | One call keeps the error in the ellipsoid of the covariance; its scale grows by the squared acceleration over SIGMA2 and the squared measurement error over R |
| `AltKalmanFilter.GpsRunTracks` | paparazzi/sw/airborne/estimator.c:144-203 | In every run with the GPS constants the squared errors of altitude and speed are at most their variances times a scale: the initial squared error plus squared accelerations plus half the squared measurement errors |
| `AltKalmanFilter.FirstGpsStep` | paparazzi/sw/airborne/estimator.c:162-197 | The state after the first call, in numbers |
| `AltKalmanFilter.AltKalman.Reset` | paparazzi/sw/airborne/estimator.c:132-137 | The covariance becomes the identity, the estimates stay |
| `AltKalmanFilter.AltKalman.PredictInPlace` | paparazzi/sw/airborne/estimator.c:175-180 | The sequential in-place update is F P F' + Q |
| `AltKalmanFilter.AltKalman.CorrectInPlace` | paparazzi/sw/airborne/estimator.c:186-197 | The sequential in-place update is the correction with h = (1, 0) |
| `AltKalmanFilter.AltKalman.Run` | paparazzi/sw/airborne/estimator.c:175-198 | One call predicts, and corrects unless e is within 1e-5 of zero |
| `AltKalmanFilter.AltKalman.RunGps` | paparazzi/sw/airborne/estimator.c:162-198 | With the GPS constants one call keeps the covariance symmetric positive definite |
| `RotationAlgebra.FastIsSlow` | paparazzi/sw/airborne/math/pprz_algebra_float.h:326-379 | The fast form with the root of two equals the slow form if and only if the quaternion is a unit |
| `RotationAlgebra.CompAssoc` | paparazzi/sw/airborne/math/pprz_algebra_float.h:456-461 | Composition of quaternions is associative |
| `RotationAlgebra.InvCompUndoes` | paparazzi/sw/airborne/math/pprz_algebra_float.h:488-493 | INV_COMP undoes COMP up to the squared norm of the first factor |
| `RotationAlgebra.CompInvUndoes` | paparazzi/sw/airborne/math/pprz_algebra_float.h:473-478 | COMP_INV undoes COMP up to the squared norm of the second factor |
| `RotationAlgebra.CompNorm` | paparazzi/sw/airborne/math/pprz_algebra_float.h:456-461 | Squared norms multiply |
| `RotationAlgebra.HomIsConjugation` | paparazzi/sw/airborne/math/pprz_algebra_float.h:513-536 | The matrix of the rotation of vectors is conjugation by the quaternion |
| `RotationAlgebra.HomComp` | paparazzi/sw/airborne/math/pprz_algebra_float.h:232-242 | The homogeneous matrix of a composition is the composition of the matrices, for all quaternions |
| `RotationAlgebra.RmatOfComp` | paparazzi/sw/airborne/math/pprz_algebra_float.h:357-378 | For unit quaternions the matrix of QUAT_COMP is RMAT_COMP of the matrices |
| `RotationAlgebra.EulersAreComposed` | paparazzi/sw/airborne/math/pprz_algebra_float.h:580-598 | The quaternion of Euler angles is yaw, pitch and roll composed |
| `RotationAlgebra.EulersAgree` | paparazzi/sw/airborne/math/pprz_algebra_float.h:281-300 | Euler angles to quaternion to matrix is Euler angles to matrix |
| `RotationAlgebra.PivotIsLarge` | paparazzi/sw/airborne/math/pprz_algebra_float.h:608-652 | On every branch the component divided by has a square of at least 1/4 |
| `RotationAlgebra.QuatOfRmatUndoes` | paparazzi/sw/airborne/math/pprz_algebra_float.h:608-652 | On all four branches the quaternion of the matrix of a unit quaternion is that quaternion or its opposite, and no divisor is zero |
| `RotationAlgebra.RootExists` | paparazzi/sw/airborne/math/pprz_algebra_float.h:608-652 | The square root each branch asks for exists |
| `RotationAlgebra.RmatIsOrthogonal` | paparazzi/sw/airborne/math/pprz_algebra_float.h:357-378 | The matrix of a unit quaternion is orthogonal |
| `RmatRoundTrip.RotationIsProper` | paparazzi/sw/airborne/math/pprz_algebra_float.h:608-652 | An orthogonal matrix of determinant 1 has orthonormal columns and every element is its own cofactor |
| `RmatRoundTrip.RotationRankOne` | paparazzi/sw/airborne/math/pprz_algebra_float.h:608-652 | The ten sums the conversion takes from a rotation are the products of four numbers |
| `RmatRoundTrip.RmatIsRotation` | paparazzi/sw/airborne/math/pprz_algebra_float.h:357-378 | The matrix of a unit quaternion is orthogonal with determinant 1 |
| `RmatRoundTrip.RmatRoundTripIff` | paparazzi/sw/airborne/math/pprz_algebra_float.h:608-652 | RMAT_OF_QUAT of QUAT_OF_RMAT gives the matrix back from a unit quaternion if and only if it is a rotation; the root taken is at least 1 |
| `Reorthogonalization.Reorthogonalize` | paparazzi/sw/airborne/math/pprz_algebra_float.h:390-409 | The in-place step computes the three new rows and returns the shared error |
| `Reorthogonalization.Renorm` | paparazzi/sw/airborne/math/pprz_algebra_float.h:401-406 | A row is scaled by its renormalisation factor, the others stay |
| `Reorthogonalization.NewDot` | paparazzi/sw/airborne/math/pprz_algebra_float.h:395-399 | The dot product of the new rows, for rows of any length |
| `Reorthogonalization.RenormNorm` | paparazzi/sw/airborne/math/pprz_algebra_float.h:381-388 | Near 1 the squared length n becomes n' with 1 - n' = (1 - n)^2 (4 - n) / 4, further away exactly 1, beyond 0 |
| `Reorthogonalization.OneStep` | paparazzi/sw/airborne/math/pprz_algebra_float.h:390-409 | Unit rows with dot product d get dot product d^3/4 before scaling, and row 2 ends exactly orthogonal to both |
| `Reorthogonalization.StepShrinksErrors` | paparazzi/sw/airborne/math/pprz_algebra_float.h:390-409 | For unit rows with dot product d the whole step makes it d times a factor that is below 1 unless the rows were orthogonal or parallel; the rows end as units from d^2 = 0.48 on and off by the fourth order in d below that |
| `Reorthogonalization.StepThirdRow` | paparazzi/sw/airborne/math/pprz_algebra_float.h:400-406 | Row 2 has squared length (1 - d^2)(1 - d^2/4)^2 before scaling, and what scaling makes of it |
| `Reorthogonalization.RenormDirection` | paparazzi/sw/airborne/math/pprz_algebra_float.h:381-388 | The scaling factor is never negative, and positive exactly for squared lengths between 0.01 and 100 |
| `Reorthogonalization.RotationsStayIff` | paparazzi/sw/airborne/math/pprz_algebra_float.h:390-409 | Of the matrices with unit rows 0 and 1 that are not parallel, the step leaves alone exactly the rotations |
| `IntegerSqrt.SecondDivisorZeroIff` | paparazzi/sw/airborne/math/pprz_algebra_int.h:863-871 | The second division is by zero exactly for 2^32 - 1, where the sum wraps |
| `IntegerSqrt.NextHalves` | paparazzi/sw/airborne/math/pprz_algebra_int.h:865-868 | Above the floor root the distance to it at least halves and stays nonnegative |
| `IntegerSqrt.NextAtRoot` | paparazzi/sw/airborne/math/pprz_algebra_int.h:865-868 | At the floor root the next value is the root or one more, the latter exactly when n + 1 is a square |
| `IntegerSqrt.SqrtStep` | paparazzi/sw/airborne/math/pprz_algebra_int.h:864-871 | One pass keeps the iterate on its way down, or ends the loop with a root; no sum overflows |
| `IntegerSqrt.Sqrt` | paparazzi/sw/airborne/math/pprz_algebra_int.h:857-874 | For every 32-bit n but 2^32 - 1 the loop ends by itself within 34 passes with the floor root, or one more when n + 1 is a square |
| `IntegerSqrt.SqrtBounds` | paparazzi/sw/airborne/math/pprz_algebra_int.h:857-874 | The result s has s*s <= n + 1 and n < (s + 1)^2 |
| `AngleFolding.AngleNormalize` | paparazzi/sw/airborne/math/pprz_algebra_int.h:90-93 | The loops end and pick the representative in [-12867, 12867] |
| `AngleFolding.CourseNormalize` | paparazzi/sw/airborne/math/pprz_algebra_int.h:95-98 | The loops end and pick the representative in [0, 25735) |
| `AngleFolding.NormalizedUnique` | paparazzi/sw/airborne/math/pprz_algebra_int.h:90-93 | That representative is the only one |
| `AngleFolding.NormalizedLaws` | paparazzi/sw/airborne/math/pprz_algebra_int.h:90-93 | Normalising identifies exactly the congruent angles, is idempotent and commutes with negation |
| `AngleFolding.CourseUnique` | paparazzi/sw/airborne/math/pprz_algebra_int.h:95-98 | The course representative is the only one |
| `SineTable.ItrigSin` | paparazzi/sw/airborne/math/pprz_trig_int.h:42-49 | For every angle the index is within the table and the result is the folded entry with its sign |
| `SineTable.ItrigCos` | paparazzi/sw/airborne/math/pprz_trig_int.h:52-54 | The sine of the angle plus the truncated quarter turn |
| `SineTable.SineLaws` | paparazzi/sw/airborne/math/pprz_trig_int.h:42-49 | The sine is odd and has period 25735 |
| `SineTable.SineSupplement` | paparazzi/sw/airborne/math/pprz_trig_int.h:42-49 | On the upper half circle the sine of PI - a is the sine of a |
| `SineTable.SineQuarters` | paparazzi/sw/airborne/math/pprz_trig_int.h:42-49 | Which entry every angle of the circle looks up, with its sign |
| `ArcTangent.FitsInt32` | paparazzi/sw/airborne/math/pprz_algebra_int.h:882-897 | For small arguments the shifts and products fit 32 bits |
| `ArcTangent.Atan2Range` | paparazzi/sw/airborne/math/pprz_algebra_int.h:882-897 | The magnitude is 1 to 12864, the result is negative if and only if y is, and odd in y away from 0 |
| `ArcTangent.Atan2DecreasesWithX` | paparazzi/sw/airborne/math/pprz_algebra_int.h:887-894 | For y >= 0 the result never rises with x, across the seam between -1 and 0 too |
| `ArcTangent.Atan2MovesWithY` | paparazzi/sw/airborne/math/pprz_algebra_int.h:882-897 | For fixed x the magnitude rises with that of y when x >= 0 and falls when x < 0, on its side of the quarter turn; how far it moves is `ArcTangent.Atan2Error` |
| `ArcTangent.Atan2Error` | paparazzi/sw/airborne/math/pprz_algebra_int.h:882-897 | The result times x + abs(y) + 1 is 6432 (abs(y) + 1) to within 1.2 times that divisor; for x < 0 the same of 12864 minus the result |
| `ArcTangent.Atan2Axes` | paparazzi/sw/airborne/math/pprz_algebra_int.h:882-897 | Far out on the x axis the result is 1 or 12864 |
| `ArcTangent.RightAngle` | paparazzi/sw/airborne/math/pprz_algebra_int.h:887-890 | On the positive y axis the result is 6432 |
| `ArcTangent.Atan2Diagonals` | paparazzi/sw/airborne/math/pprz_algebra_int.h:882-897 | Far out on the diagonals the result is 3216 or 3217, and 9648 or 9649 |
| `ArcTangent.Atan2Complement` | paparazzi/sw/airborne/math/pprz_algebra_int.h:887-890 | In the first quadrant the angles of (x, y) and (y, x) add up to a right angle, to within 2.4 units plus 6432 / (x + y + 1) |
| `ArcTangent.Atan2Values` | paparazzi/sw/airborne/math/pprz_algebra_int.h:882-897 | Values that show the rounding of the division and of the shift |
| `MotorMixing.MixBalances` | paparazzi/sw/airborne/csc/mercury_supervision.h:24-33 | Each command moves two motors up and two down, so the mean motor is the thrust |
| `MotorMixing.Mix` | paparazzi/sw/airborne/csc/mercury_supervision.h:28-33 | The array becomes the mix, stored in 16 bits |
| `MotorMixing.RawBalances` | paparazzi/sw/airborne/csc/mercury_supervision.h:24-33 | Thrust, roll, pitch and yaw as they show in the mix; yaw by gain times command over 20, rounded toward zero |
| `MotorMixing.FindMinMotor` | paparazzi/sw/airborne/csc/mercury_supervision.h:48-58 | The least of the four motors |
| `MotorMixing.FindMaxMotor` | paparazzi/sw/airborne/csc/mercury_supervision.h:36-46 | The greatest of the four motors |
| `MotorMixing.OffsetMotors` | paparazzi/sw/airborne/csc/mercury_supervision.h:60-65 | Every motor is moved by the offset, modulo 2^16 |
| `MotorMixing.BoundMotors` | paparazzi/sw/airborne/csc/mercury_supervision.h:67-72 | Every motor is clamped to the range |
| `MotorMixing.SupervisionRun` | paparazzi/sw/airborne/csc/mercury_supervision.h:88-111 | The in-place run computes the supervised mix, and zeros with motors off |
| `MotorMixing.CommonShift` | paparazzi/sw/airborne/csc/mercury_supervision.h:92-103 | Without overflow every motor is moved by one common shift and clamped; wrapped offsets cancel |
| `MotorMixing.MixerLaws` | paparazzi/sw/airborne/csc/mercury_supervision.h:88-111 | Without overflow: in range, order kept, no pair further apart, all differences kept if and only if the spread fits, and then moved only up to the bound crossed; else strongest at the top, the rest as far below it as in the mix or at the bottom |
| `MotorMixing.OverflowOutputs` | paparazzi/sw/airborne/csc/mercury_supervision.h:88-111 | What every motor gets when raising overflows 16 bits |
| `MotorMixing.OrderKeptIff` | paparazzi/sw/airborne/csc/mercury_supervision.h:88-111 | The order of the mix is kept if and only if nothing overflows, or the rest shares the bottom with what does, or lowering wraps all of it back |
| `MotorMixing.DifferencesKeptIff` | paparazzi/sw/airborne/csc/mercury_supervision.h:88-111 | All differences are kept if and only if the spread fits the range, overflow or not |
| `MotorMixing.AlwaysInRange` | paparazzi/sw/airborne/csc/mercury_supervision.h:103-103 | Outputs are in range whatever overflows |
| `MotorMixing.SpreadSuffices` | paparazzi/sw/airborne/csc/mercury_supervision.h:92-102 | For a positive range, spread plus minimum below 2^15 rules overflow out |
| `MotorMixing.OverflowBreaksOrder` | paparazzi/sw/airborne/csc/mercury_supervision.h:92-102 | Commands of zero thrust whose mix loses its order: the strongest motor gets the least |
| `MercuryAutopilot.Autopilot.constructor` | paparazzi/sw/airborne/csc/mercury_ap.c:66-78 | Motors off, counters zero |
| `MercuryAutopilot.Autopilot.CheckMotors` | paparazzi/sw/airborne/csc/mercury_ap.c:111-127 | The macro computes the counter step |
| `MercuryAutopilot.Autopilot.SetProps` | paparazzi/sw/airborne/csc/mercury_ap.c:172-177 | Every propeller gets the speed `MercuryAutopilot.EnableFlags` describes: its command as a byte, or zero when disabled |
| `MercuryAutopilot.Autopilot.Periodic` | paparazzi/sw/airborne/csc/mercury_ap.c:145-179 | One period: check, kill, commands, mix, pass-through, enable, commit |
| `MercuryAutopilot.KillStops` | paparazzi/sw/airborne/csc/mercury_ap.c:147-177 | A period with the kill flag disarms and drives every propeller to zero |
| `MercuryAutopilot.EnableFlags` | paparazzi/sw/airborne/csc/mercury_ap.c:172-177 | A disabled propeller gets zero, an enabled one its mixed command modulo 256 whatever the other flags are |
| `MercuryAutopilot.ThrustMeans` | paparazzi/sw/airborne/csc/mercury_ap.c:155-155 | The thrust command is the throttle times 105 / 7200, rounded toward zero, plus 95 |
| `MercuryAutopilot.PassThrough` | paparazzi/sw/airborne/csc/mercury_ap.c:165-177 | With pass-through every enabled propeller gets the thrust command clamped to 0 to 255 |
| `MercuryAutopilot.Gates` | paparazzi/sw/airborne/csc/mercury_ap.c:135-162 | Outside of flight no propeller shows the yaw command, with motors off none turns |
| `MercuryAutopilot.CommandsInMix` | paparazzi/sw/airborne/csc/mercury_ap.c:135-162 | With motors on the mix has the thrust command on average and roll, pitch and, in flight only, yaw on its axes |
| `MercuryAutopilot.SpeedsFollowMix` | paparazzi/sw/airborne/csc/mercury_ap.c:162-177 | With motors on, no pass-through and all enabled, the committed speeds are in range, in the order of the stored mix exactly when OrderSurvives says so, and with its differences exactly when they fit |
| `MercuryAutopilot.SpeedsCanLoseOrder` | paparazzi/sw/airborne/csc/mercury_ap.c:155-177 | A throttle and commands for which the strongest motor of the mix gets the least speed |
| `MercuryAutopilot.CounterMeaning` | paparazzi/sw/airborne/csc/mercury_ap.c:111-127 | In every run the counter is the number of periods held since it was last reset with motors off |
| `MercuryAutopilot.ArmsIff` | paparazzi/sw/airborne/csc/mercury_ap.c:111-127 | In every run the motors are turned on in a period if and only if the stick has been held for exactly the last 128 periods since a release with motors off (or the start); the motors were off throughout |
| `MercuryAutopilot.HeldMeans` | paparazzi/sw/airborne/csc/mercury_ap.c:62-63 | Held means throttle below and yaw beyond 70 % of the stick range of 9600 |
| `MercuryAutopilot.InFlightMeaning` | paparazzi/sw/airborne/csc/mercury_ap.c:111-149 | In every run the in-flight flag is the caller's and the counter is 128 for every arming, modulo 2^32 |
| `MercuryAutopilot.KillNeedsRelease` | paparazzi/sw/airborne/csc/mercury_ap.c:147-148 | After a kill the motors stay off as long as the stick is held |
| `MercuryAutopilot.OnSinceArming` | paparazzi/sw/airborne/csc/mercury_ap.c:111-148 | Motors that are on have been on since an arming, with no kill since |
| `MercuryAutopilot.SpeedNeedsArming` | paparazzi/sw/airborne/csc/mercury_ap.c:145-177 | No propeller turns unless 128 held periods armed the motors and no kill came since |

## Left out

- SpiStreamProtocol.Delivered: asks for ring room and messages of 1 to 704 bytes. Without room the ring is not kept (`SpiStreamSender.RingKeptIffRoom`), and a longer message is copied past the receive buffer (`SpiStreamProtocol.MessageInBoundsIff`).
- AltVFilter.RunTracks: over real numbers, as are all theorems on the two filters; the vehicle moves as the accelerometer says, its bias staying what it is.
- AltVFilter.RunPosDef: over real numbers; rounding of floats is not modelled, and the filter period is a parameter.
- AltKalmanFilter.GpsRunPosDef: over real numbers, with the GPS constants; the barometer configurations are covered by `AltKalmanFilter.StepPosDef` for any positive noise.
- RotationAlgebra.EulersAgree: sine and cosine are pairs on the unit circle, the full angle given by the double-angle formulas; transcendental functions are not modelled.
- RotationAlgebra.QuatOfRmatUndoes: the square root and the root of two are values given by their squares, here and in `RmatRoundTrip.RmatRoundTripIff`.
- Reorthogonalization.StepShrinksErrors: for rows 0 and 1 of unit length; `Reorthogonalization.NewDot` and `Reorthogonalization.RenormNorm` hold for rows of any length.
- IntegerSqrt.Sqrt: excludes 2^32 - 1, where the code divides by zero.
- ArcTangent.FitsInt32: for arguments small enough that the shifts do not overflow; the laws hold of the exact arithmetic everywhere.
- SineTable.ItrigCos: the sum with the quarter turn must not overflow 32 bits. Evenness is not claimed: the truncated quarter turn is off by part of a table entry.
- PprzParser.FrameAccepted: payloads of 1 to 256 bytes; the parser takes the length byte of an empty payload for 256 bytes.
- UbxParser.FrameAccepted: payloads of 1 to 255 bytes; the parser reads one payload byte even of an empty message.
- Datalink.StreamDelivered: payloads of 1 to 255 bytes, and idle bytes between frames that are not STX; a run goes on only while its polls are in bounds, which is always exactly when no payload is longer than the datalink buffer (`Datalink.AlwaysInBoundsIff`).
- Datalink.Link.PprzParsePayload: payloads of at most 128 bytes; a longer one is copied past the datalink buffer, where C gives no meaning. `Datalink.PollInBoundsIff` says when that is.
- Datalink.Link.DatalinkEvent: the same condition, for the message the event is about to copy.
- UdpWriter.UdpTransport.SendMessage: a message is put together without a flush in between.
- OnboardLogger.SentIsLogged: payloads of at most 245 bytes, so that the frame length fits its byte (`UdpFormat.Frame`).
- OnboardLogger.DatagramLogged: takes the memory after a datagram as given, at least 12 bytes of it; the Ethernet and IP headers are not modelled.
- MotorMixing.MixerLaws: asks that the values in between fit 16 bits; `MotorMixing.OrderKeptIff` and `MotorMixing.DifferencesKeptIff` do not, for a motor range of nonnegative commands.
- MercuryAutopilot.SpeedsFollowMix: about the mix as stored in 16 bits, which is the mix itself exactly when it fits (`MercuryAutopilot.StoredExact`).
- SpiStreamLoss.LossyRun: what arrives is any part of what was written, in order and undamaged.
- The device side: UART, SPI, sockets, packet capture and ioctl calls; a link is a sequence of bytes or packages.
- The airframe header is not part of this model: four motors with the indices 0 to 3; range, trims and gains are parameters.
- The entries of the sine table: any table with 6434 entries and a first entry 0.
- The timestamp of a UDP frame is four arbitrary bytes.
- Stabilization and guidance calls in `csc_ap_periodic`: their commands are arbitrary inputs. The surfaces mixing and `BOOZ2_AUTOPILOT_CHECK_IN_FLIGHT`, which the period does not call.
- `agl_vfilter.c`, `udp_transport.h`, the uplink parser of `udp_transport2.h`, the Xsens parsers and `xbee.h`: near copies of what is modelled.
- Message dispatch, telemetry macros and the decoding of GPS fields, which depend on generated headers.
- `overo_link_telemetry_get`, `itow_from_ticks` and `csc_can1_send`.
- Normalising and wrapping quaternion macros, quaternion derivatives and the fast form of `FLOAT_QUAT_VMULT`.
