# The Open Drone ID transmitter, modelled in Dafny

The transmitter sends drone identification over Wi-Fi beacons and Bluetooth advertising. This project models its
stateful parts and proves what they keep over whole runs:

* `Octets`, `Carriers`, `WifiBeacon`: the frames on the four carriers, with receivers written from the two radio
  standards alone (section 9.4.2.1 of IEEE 802.11-2016; section 11 of Vol 3 Part C of the Bluetooth Core
  Specification), and the builders of the vendor element.
* `Config`: the options and the combinations the program accepts.
* `Controller`, `Bluetooth`, `HciSession`: the HCI commands, octet by octet, a controller that decodes and executes them
  after sections 3.1.1 and 7.8 of Vol 4 Part E of the Bluetooth Core Specification, and the sessions between the two.
* `Gps`: what GPS fixes do to the transmitted location, and the retry automaton of the thread that reads them.
* `Transmit`: encoding, packing and counting, for arbitrary encoders, in single and in pack mode; the run of the
  program ends in the element texts and the HCI commands that the other modules decode.
* `CommandLine`, `Dispatch`, `ApInterface`: the hostapd client: commands built in fixed buffers, lookup in the command
  table, and the life of the connection.
* `Threads`, `ThreadSafety`, `ThreadPacks`, `ThreadGps`, `ThreadFlags`, `ThreadCalls`: main thread, hostapd event loop and GPS thread as interleaved steps over
  the shared semaphore, connection, `kill_program` and location, and what holds in every interleaving.

Code that works in place is a method over arrays or a class, proved against functions whose properties are then proved
as lemmas. Encoders of core-c, the outcome of every external call (opening, attaching, requesting, reading the GPS),
the random address and the arrival of signals are parameters or free choices of the environment.

Where the program and its documentation differ, the model follows the code:

* The comment in `wifi_beacon.c:30` calls the leading `dd` a marker for hexadecimal data. It is the first octet of the
  element, 0xDD, which is element ID 221 (vendor specific); `Carriers.WifiPayload` reads it so.
* `gpsmod.c:58-60` derives the vertical accuracy from `epy`, the latitude error of a fix.
* The options `4` and `5` are accepted together with a warning. The reset in front of the BT5 set erases the BT4 set, so
  the enable command then names a handle that does not exist: `HciSession.EnabledHandlesExistIff`.
* That one post answers one request is not so: PING posts the semaphore the requests wait on, and a dropped request
  posts nothing. `ThreadSafety.BlockedIffDropsOutnumberPings` states exactly when a wait blocks, and
  `ThreadSafety.WaitsCanBlock` gives a run in which one does.

## Model

| member | source | states |
|---|---|---|
| Octets.UcharToAscii | utils.c:16-30 | two upper-case hexadecimal digits are stored at the pointer, the rest of the buffer is unchanged, a null pointer is ignored |
| Octets.UnhexHexAll | utils.c:16-30 | reading the hexadecimal text of any octets gives the octets back |
| Carriers.ElementRoundTrip | wifi_beacon.c:27-57 | an element read by its own length octet yields counter and body |
| Carriers.AdRoundTrip | bluetooth.c:159-185 | an advertising data structure read by its own length octet yields counter and body |
| Carriers.UnpackFlatten | transmit.c:207-239 | a receiver that takes the number of messages from the third octet finds the messages of a pack, in order |
| WifiBeacon.WriteHex | wifi_beacon.c:76-77 | the loop writes the hexadecimal text of the octets behind the head and nothing else, inside the buffer |
| WifiBeacon.BuildBeaconMessage | wifi_beacon.c:37-52 | the text handed over for a message decodes to its counter and its 25 octets |
| WifiBeacon.BuildBeaconPack | wifi_beacon.c:60-79 | the same for a pack of 0 to 9 messages |
| WifiBeacon.WifiFrameIsTight | wifi_beacon.c:63-79 | the element of n messages decodes by its own length octet if and only if n is at most 9, which is also what fits the text buffer |
| WifiBeacon.BluetoothFrameIsTight | bluetooth.c:281-300 | the same for the Bluetooth frame, its two length octets and its command buffer |
| Config.ParseCommandLine | transmit.c:277-332 | which options are chosen, and exactly which combinations exit with success, with failure, or go on |
| Controller.RunAppend | bluetooth.c:110-115 | commands given in two batches have the effect and the statuses of the whole |
| Controller.RunKeepsWellFormed | bluetooth.c:110-115 | whatever commands follow a reset, legacy advertising and advertising sets never coexist |
| Bluetooth.ClampInterval | bluetooth.c:152 | C division and the two clamps |
| Bluetooth.IntervalEncoding | bluetooth.c:152-154 | every field the controller reads from the parameter commands: the clamped quotient from the 16-bit and the 24-bit fields (bluetooth.c:236-239), minimum equal to maximum, and type, channels, addresses, filter policy, power and PHYs |
| Bluetooth.IntervalIsClose | bluetooth.c:236-239 | where no clamp acts the encoded time is at most the request and within 0.625 ms of it; where one acts it is the bound |
| Bluetooth.IntervalIsMonotone | bluetooth.c:236-239 | a longer request is never encoded as a shorter interval |
| Bluetooth.BuildAdvertisingParameters | bluetooth.c:140-157 | the parameters of the legacy command, as octets |
| Bluetooth.BuildExtendedParameters | bluetooth.c:216-248 | the parameters of the extended command for both kinds of set |
| Bluetooth.BuildSetRandomAddress | bluetooth.c:203-214 | the handle and the six octets of the address |
| Bluetooth.BuildAdvertisingData | bluetooth.c:169-185 | the data of the legacy command decode to counter and message |
| Bluetooth.BuildExtendedData | bluetooth.c:251-273 | the data of the extended command decode to counter and message |
| Bluetooth.BuildExtendedPack | bluetooth.c:276-303 | the data of the extended command, cut to the length it states, decode to counter and pack |
| Bluetooth.BuildExtendedEnable | bluetooth.c:314-333 | which handles are named |
| Bluetooth.InitCommands | bluetooth.c:350-386 | what initialisation asks of the controller, command by command with all parameters, for every configuration |
| Bluetooth.TransmitCommands | bluetooth.c:388-403 | which data commands a message or a pack gives, for every configuration, both extended advertisers included, and that each carries counter and body |
| Bluetooth.HciSocket.StopTransmit | bluetooth.c:343-348 | the four commands, in order |
| Bluetooth.HciSocket.InitBluetooth | bluetooth.c:350-386 | all commands of initialisation, in order, for every configuration |
| Bluetooth.HciSocket.SendMessage | bluetooth.c:388-398 | in order one data command for each selected advertiser and nothing else, also with options 4 and 5 together, each decoding to counter and message |
| Bluetooth.HciSocket.SendPack | bluetooth.c:400-403 | one data command for the BT5 set if BT5 is selected, decoding to counter and pack |
| Bluetooth.HciSocket.CloseBluetooth | bluetooth.c:404-407 | closing stops |
| HciSession.StopSilences | bluetooth.c:343-348 | from every state reachable by any commands since a reset, stopping leaves nothing advertising |
| HciSession.StopSteps | bluetooth.c:343-348 | which of the four commands the controller carries out and which it rejects in each mode, and that both handles are gone |
| HciSession.SessionIsLegal | bluetooth.c:350-403 | for one advertiser and any number of messages or packs, every command from the last reset on succeeds, exactly the configured advertiser is enabled, and the data on the air decode to what was sent last |
| HciSession.SessionResets | bluetooth.c:354-376 | the last reset of a session is the one in front of the configured advertiser's set-up |
| HciSession.SetupLeavesOneSet | bluetooth.c:366-376 | after set-up exactly one set exists, BT5's whenever BT5 is selected |
| HciSession.EnabledHandlesExistIff | bluetooth.c:366-385 | every handle named by an enable command exists if and only if not both extended advertisers are selected |
| HciSession.ResetBeforeExtended | bluetooth.c:355-386 | behind init's stop a reset precedes every extended command |
| Gps.UasData.ProcessGpsData | gpsmod.c:23-67 | every field after one fix, outright: what the fix offers under its own mode and finiteness test, otherwise the old value; the altitude above mean sea level precedes the other |
| Gps.StoresApply | gpsmod.c:23-67 | the assignments one at a time come to the whole fix |
| Gps.AltitudePrecedence | gpsmod.c:33-44 | altMSL sets the two altitudes and the height whatever altitude is; altitude only without it; otherwise all three stay |
| Gps.LastAltitudeWins | gpsmod.c:33-44 | over any sequence the last fix with an altitude decides all three, its altMSL first |
| Gps.NoAltitudeKeeps | gpsmod.c:33-44 | a sequence without an altitude leaves all three |
| Gps.FixesAccumulate | gpsmod.c:23-67 | after any sequence of fixes each field is what the last fix that offered a value gave, or the initial value |
| Gps.AltitudesAgree | gpsmod.c:34-44 | once an altitude was accepted the two altitudes agree and the height is relative to the operator, for ever |
| Gps.GpsLoop | transmit.c:334-378 | the loop ends with the status of the automaton, sets `kill_program` exactly for status 1, and applies exactly the fixes read |
| Gps.CountersMean | transmit.c:339-370 | the two counters are the timeouts in a row and the failed reads since the last success |
| Gps.EndsExactly | transmit.c:341-374 | status 1 exactly at the 62nd timeout in a row or the 7th failed read without a success, status 0 exactly when killed |
| Gps.UnsuccessfulRunsAreBounded | transmit.c:341-374 | at most 434 iterations in a row without a successful read |
| Gps.BoundIsReached | transmit.c:349-362 | 434 is reached |
| CommandLine.AppendArgs | ap_interface.c:688-695 | the append loop succeeds exactly when the joined command is shorter than the buffer, which then holds it; `total` stays inside |
| CommandLine.BssTmReq | ap_interface.c:673-697 | what is sent is the joined command, or nothing |
| CommandLine.Fst | ap_interface.c:1118-1142 | the same for 256 octets and one argument |
| CommandLine.ChanSwitch | ap_interface.c:1146-1182 | the same for 256 octets and two arguments |
| CommandLine.Set | ap_interface.c:1012-1031 | the same for exactly two arguments and 2048 octets |
| CommandLine.JoinLength | ap_interface.c:688-695 | the length compared with the buffer is the name plus one space and the text of every argument |
| CommandLine.ElementAlwaysFits | ap_interface.c:1023-1027 | the element of any pack is never dropped for its length |
| Dispatch.WpaRequest | ap_interface.c:1718-1754 | for every table and query: the first exact match, else the only prefix match, else nothing |
| Dispatch.PrefixIgnoresCase | ap_interface.c:1726-1728 | the comparison ignores the case of letters and nothing else |
| Dispatch.SelectsOne | ap_interface.c:1738-1753 | that specification admits one answer |
| Dispatch.SelectsSome | ap_interface.c:1738-1753 | and always has one |
| Dispatch.OwnHandler | ap_interface.c:1509-1682 | in every build `set`, `update_beacon` and `quit` reach their own handlers |
| Dispatch.ThreeBeginWithSet | ap_interface.c:1590-1631 | `set` begins three names, so the exact match is what decides |
| Dispatch.RequestsArrive | wifi_beacon.c:21-91 | each request the transmitter makes posts the semaphore, unless it needs the connection and there is none |
| ApInterface.Interface.RegisterEventHandler | ap_interface.c:58-68 | flag and socket follow the event loop's answer |
| ApInterface.Interface.UnregisterEventHandler | ap_interface.c:71-79 | only a registered connection is taken off the event loop |
| ApInterface.Interface.OpenConnection | ap_interface.c:82-113 | a connection is open exactly if a name, memory and hostapd are there |
| ApInterface.Interface.CloseConnection | ap_interface.c:116-128 | the connection is closed once, both flags are cleared and nothing else changes; without a connection nothing happens |
| ApInterface.Interface.Reconnect | ap_interface.c:131-159 | exactly when a connection results, which one, whether it is attached and registered, the name kept, one close if there was one before, and 0 exactly with a connection |
| ApInterface.Interface.HandlePing | ap_interface.c:1819-1830 | an answered ping changes nothing, one that fails closes the connection, and without a connection one is up afterwards exactly if the attempt can connect |
| ApInterface.Interface.ApInterfaceInit | ap_interface.c:1978-2039 | for every sequence of attempts and pings: the post is made exactly on a connection, and everything is balanced at exit |
| ApInterface.EstablishedIff | ap_interface.c:1995-2025 | a connection is established exactly if one of the tries can connect under the name in use at that try, and only one is opened |
| ApInterface.PingMeans | ap_interface.c:1819-1830 | the effect of a ping, answered or not, on connection, opens and closes |
| ApInterface.ReconnectKeepsConsistent | ap_interface.c:131-159 | registered implies attached implies connected, opens minus closes is 1 or 0, no closed connection stays registered |
| ApInterface.EveryRunIsConsistent | ap_interface.c:58-159 | the same after every sequence of attempts and pings, and closing balances it |
| Transmit.CreateMessagePack | transmit.c:205-239 | nine messages, each from its own encoder, its own record and the buffer the one before left, and the pack made of them |
| Transmit.MessagesInOrder | transmit.c:205-239 | which record goes through which encoder into which message |
| Transmit.CycleInOrder | transmit.c:165-203 | the same of the messages of single mode |
| Transmit.FailedPackIsEmpty | transmit.c:242-243 | a pack that could not be encoded is sent without messages |
| Transmit.CountAfterCycles | transmit.c:165-203 | after c cycles Basic ID was sent 2c times, Auth 3c times, the rest c times |
| Transmit.SingleCountersAre | transmit.c:165-203 | the counters themselves after c cycles: 2c, 3c and c modulo 256 |
| Transmit.CountersAreConsecutive | transmit.c:172-201 | successive messages of one type carry consecutive counters modulo 256, across cycles |
| Transmit.SingleRunAt | transmit.c:165-203 | every message of a run of any length, with its exact counter |
| Transmit.PackRunAt | transmit.c:241-252 | every round of a run of any length: the pack of its cycle, counter i with one carrier, 2i and 2i + 1 with both |
| Transmit.CarriersAgree | transmit.c:153-161 | the octets from the application code on are the same on all four carriers, each decoded by its own lengths |
| Transmit.PackRefinesSingle | transmit.c:165-239 | for all encoders, failing ones included, the messages a receiver finds in the pack are those single mode sends from the same data |
| Transmit.CarriedIsSession | transmit.c:153-161 | the Bluetooth commands of a run are those of the session proved legal |
| Transmit.CarriedElements | transmit.c:158-159 | every message or pack sent gives one element, in order |
| Transmit.CarriedPackets | transmit.c:154-157 | with one advertiser every message or pack sent gives one command, in order |
| Transmit.SingleRunIsReceived | transmit.c:165-203 | what receivers on both carriers read from the i-th transmission of a single-mode run: the message of its slot and the number of its kind before it |
| Transmit.PackRunIsReceived | transmit.c:241-252 | the same in pack mode: the pack of its cycle with the exact counters |
| Transmit.Transmitter.SendMessage | transmit.c:153-161 | the selected carriers get the message with one and the same counter |
| Transmit.Transmitter.SendSingleMessages | transmit.c:165-203 | nine messages in order, each from its own encoder and record, with their counters, and all seven counters after it |
| Transmit.Transmitter.SendPack | transmit.c:246-249 | Wi-Fi takes one counter value, BT5 the next |
| Transmit.Transmitter.SendPacks | transmit.c:241-252 | ten rounds of one pack |
| Transmit.Transmitter.Run | transmit.c:399-438 | everything written to both carriers from start to end, for any number of cycles |
| Threads.ProgramShape | transmit.c:205-252 | a pack is encoded in order and built before anything is sent |
| ThreadSafety.RunsKeepPhases | transmit.c:380-439 | which phases of the three threads can go together, in every interleaving |
| ThreadSafety.SemaphoreIsConserved | ap_interface.c:183-184 | value plus completed waits equals connect, command, ping and quit posts (also ap_interface.c:890-899, ap_interface.c:2027-2028) |
| ThreadSafety.WaitBlocksAtZero | wifi_beacon.c:52-53 | a wait of main is blocked exactly when the semaphore is zero |
| ThreadSafety.BlockedIffDropsOutnumberPings | wifi_beacon.c:21-91 | at a wait for a request the semaphore is 1 + pings − drops, so main is blocked exactly if the requests dropped so far outnumber the pings posted so far (ap_interface.c:175-184), and never without a drop |
| ThreadSafety.QuitNeverBlocks | wifi_beacon.c:87-91 | the wait for the quit request never blocks, and no request of any run is lost in the lookup or for its length |
| ThreadSafety.WaitsCanBlock | ap_interface.c:1821-1824 | a run that blocks: one ping fails and two requests are dropped before the connection is back |
| ThreadSafety.NoRequestBeforeConnection | transmit.c:387-391 | a request is preceded by an opened connection and the post that announces it |
| ThreadSafety.NoPostAfterDestroy | transmit.c:126-134 | no post and no wait follows the destruction of the semaphore |
| ThreadSafety.NoStepAfterJoin | transmit.c:130-138 | a joined thread takes no further step |
| ThreadSafety.KillIsFinal | transmit.c:147-151 | `kill_program` never reverts and is set whenever main waits for the GPS thread |
| ThreadSafety.GpsJoinIsBounded | transmit.c:136-138 | from the moment main waits for the GPS thread, that thread makes at most 13 steps |
| ThreadSafety.GpsIsNeverStuck | transmit.c:341-374 | until it has ended the GPS thread can always take a step, so the join returns |
| ThreadSafety.ApJoinIsBounded | transmit.c:126-131 | from the moment main waits for the event loop, it makes at most 6 steps |
| ThreadSafety.ApIsNeverStuck | ap_interface.c:1919-1939 | told to terminate, the event loop can always take a step until it has exited |
| ThreadPacks.RunsKeepPacks | transmit.c:205-252 | at every step, everything transmitted carries the pack of its call |
| ThreadPacks.PackBodiesAgree | transmit.c:241-252 | all transmissions of one call of `send_packs` carry the same body on both carriers, whatever the GPS thread writes meanwhile |
| ThreadPacks.LaterFixesAreInvisible | transmit.c:420-430 | once its pack is built, a call transmits that pack whatever is written to the location |
| ThreadGps.LocationFollowsFixes | transmit.c:372 | at every point of every run the shared location is what the fixes read so far come to, and while one is being stored only its remaining assignments are missing |
| ThreadGps.FixesAreRead | transmit.c:341-374 | the fixes read in a run are those of the loop |
| ThreadGps.RunsLoop | transmit.c:338-370 | in every interleaving the thread stands where the loop stands after the same answers |
| ThreadGps.GpsThreadEndsAsLoop | transmit.c:349-377 | the thread ends with status 1 exactly when the loop gives up, and once ended the program is killed |
| ThreadGps.KilledIff | transmit.c:147-151 | `kill_program` is set exactly when a signal was handled or the GPS thread gave up (transmit.c:351, transmit.c:364) |
| ThreadFlags.ConnectionIs | ap_interface.c:1819-1830 | `ctrl_conn` is determined by the openings, failed pings and closings so far, and each state of the event loop has the connection it needs |
| ThreadFlags.PingsNeedConnection | ap_interface.c:1821 | a ping is posted only while there is a connection |
| ThreadFlags.FlagsAre | ap_interface.c:890-899 | the event loop is told to terminate exactly by the quit request or a signal, the semaphore is destroyed exactly by the clean-up (transmit.c:133) |
| ThreadCalls.CallsAreComplete | transmit.c:420-436 | in every interleaving each round hands to each carrier in use exactly its nine messages in order, or the pack ten times, all from one location, and nothing to another carrier |
| ThreadCalls.LocationWasRead | transmit.c:177 | that location is the one the shared location held at a moment within the round (also transmit.c:216) |
| ThreadCalls.NoRoundAfterKill | transmit.c:420-430 | once killed, no further round begins |
| ThreadCalls.OneRoundWithoutGps | transmit.c:431-436 | without GPS there is exactly one round |

## Left out

- HciSession.SessionIsLegal: not for options 4 and 5 together, where the second set-up erases the first set; what init does then is `SetupLeavesOneSet` and `EnabledHandlesExistIff`.
- Bluetooth.BuildExtendedEnable: the eight octets are not the layout of section 7.8.56 for two sets; the controller model reads the count and the handles that follow it, as the code means them.
- Bluetooth.HciSocket.InitBluetooth: the random address is a parameter of six octets; nothing is claimed about its being a valid static address, and opening and closing the device is not modelled.
- Bluetooth.BuildExtendedPack: the command is always 238 octets long; the controller model ignores those behind the stated data length.
- ThreadSafety.GpsJoinIsBounded: only for runs in which the GPS thread was created; the path on which `init_gps` fails and `cleanup` joins a thread never created (transmit.c:408-412) is not part of this model.
- ThreadSafety.NoRequestBeforeConnection: the exits of the event-loop thread in front of its loop (`os_program_init`, `eloop_init` failing, ap_interface.c:1983-1993) are not modelled; main would wait for ever there.
- ThreadSafety.BlockedIffDropsOutnumberPings: `sem_wait` interrupted by a signal (EINTR) and a signal that kills the process before a handler is installed are not modelled.
- ThreadPacks.PackBodiesAgree: an encoder reads the location in one step, so a location written while `encodeLocationMessage` reads it (a torn read) is not captured; the assignments of `process_gps_data` are separate steps.
- Threads.ProgramShape: the message counters are a free choice of each request in the interleaved machine; their values are proved for the sequential program in `Transmit`. Steps without shared state (sleeping, printing, the HCI commands of init and stop) are merged with their neighbours.
- Gps.FixesAccumulate: floating-point rounding; finite values are reals, and the accuracy enumerations are any functions.
- ApInterface.Interface.Reconnect: `update_stations` and the reading of pending events touch neither the flags nor the semaphore; the client socket directory is never set.
- A request and the drop test before it are one step, so the use of a connection that the event loop closes between the test and the request is not modelled.
- The answer to an HCI command (`send_cmd` reading and printing the event) and the exit when writing fails.
- The layouts produced by the encoders of core-c; the encoders are arbitrary functions of the old buffer and the data. A pack encoder that fails leaves the pack zeroed.
- The other handlers of the command table, among them the many one-line wrappers; a request that reaches one is `Unmodelled`, and none of the transmitter's does.
- Printing, help, usage, tab completion, example data, `print_bt_features.c` and the uncalled `send_bluetooth_message_btmgmt`: text or dead code.
- Real time: `sleep`, `usleep` and the ping interval are only an order of steps.
