/** The TUN supervisor and its two workers (src/tun.rs) as three interleaved processes. */
module Tun {
  import opened Wire
  import opened Seqs

  datatype TunEvent = Info | InitError | FatalError | DropPacket | ReconnectRequired

  datatype ErrorKind =
    | WouldBlock | Interrupted | WriteZero | InvalidData | UnexpectedEof | TimedOut
    | NetworkDown | BrokenPipe | StaleNetworkFileHandle | NotConnected | ConnectionReset | ConnectionAborted
    | PermissionDenied | NotFound | AlreadyExists | InvalidInput | ResourceBusy | AddrInUse | Unsupported
    | OtherError

  /** The events that end an epoch. */
  predicate Decisive(e: TunEvent) {
    e == ReconnectRequired || e == FatalError
  }

  /** The kinds after which the device is still there... */
  predicate Transient(kind: ErrorKind) {
    kind.WouldBlock? || kind.Interrupted? || kind.WriteZero? || kind.InvalidData? || kind.UnexpectedEof? || kind.TimedOut?
  }

  /** ... and those that mean it is gone. */
  predicate DeviceLost(kind: ErrorKind) {
    || kind.NetworkDown? || kind.BrokenPipe? || kind.StaleNetworkFileHandle?
    || kind.NotConnected? || kind.ConnectionReset? || kind.ConnectionAborted?
  }

  function ClassifyTunError(kind: ErrorKind): (r: TunEvent)
    ensures r == DropPacket <==> Transient(kind)
    ensures r == ReconnectRequired <==> DeviceLost(kind)
    ensures r == DropPacket || Decisive(r)
  {
    match kind
    case WouldBlock => DropPacket
    case Interrupted => DropPacket
    case WriteZero => DropPacket
    case InvalidData => DropPacket
    case UnexpectedEof => DropPacket
    case TimedOut => DropPacket
    case NetworkDown => ReconnectRequired
    case BrokenPipe => ReconnectRequired
    case StaleNetworkFileHandle => ReconnectRequired
    case NotConnected => ReconnectRequired
    case ConnectionReset => ReconnectRequired
    case ConnectionAborted => ReconnectRequired
    case _ => FatalError
  }

  /** Where `Tun::run` stands. It stops for a fatal event, or because a worker vanished without its last word. */
  datatype Super =
    | Creating
    | Selecting
    | AwaitWriter(event: TunEvent)
    | AwaitReader(event: TunEvent)
    | StoppedFatal
    | StoppedBroken

  datatype Reader = NoReader | Reading | ReaderDone

  datatype Writer = NoWriter | Waiting | Writing(packet: Packet) | WriterDone

  /** Who owns the receiver of the channel from the coordinator; a worker's last word carries it back. */
  datatype Owner = Supervisor | WriterTask | LastWord

  datatype Outcome = Outcome(packet: Packet, written: bool)

  datatype ReadResult = Eof | Data | CoordinatorGone | ReadError(kind: ErrorKind)

  datatype WriteResult = Wrote | WriteError(kind: ErrorKind)

  /** What the writer met: the result of a write, or a closed channel. */
  datatype WriterMet = Result(wr: WriteResult) | FoundClosed

  /** The word that ended an epoch, from whom it came and what that worker had met. */
  datatype Heard =
    | FromReader(read: Option<ReadResult>, word: TunEvent)
    | FromWriter(met: Option<WriterMet>, word: TunEvent)

  datatype State = State(
    pc: Super,
    reader: Reader, readerWord: Option<TunEvent>, stopReader: bool,
    writer: Writer, writerWord: Option<TunEvent>, stopWriter: bool,
    owner: Owner,
    channel: seq<Packet>,         // from the coordinator
    channelClosed: bool,          // the coordinator is gone
    sent: seq<Packet>,            // everything the coordinator ever put into the channel
    outcomes: seq<Outcome>,       // what became of the packets taken out of it, in order
    fellThrough: bool,            // an arm marked impossible was taken
    epoch: nat,
    lastRead: Option<ReadResult>, // what the workers of this epoch have met last
    lastMet: Option<WriterMet>,
    heard: seq<Heard>)            // the word each epoch was ended by

  datatype Step =
    | CreateDevice(ok: bool)
    | ReaderStops | ReaderReads(rr: ReadResult)
    | WriterStops | WriterTakes | WriterFindsClosed | WriterWrites(wr: WriteResult)
    | HearReader | HearWriter            // the select! of the supervisor
    | MissReader | MissWriter            // ... or an await, on a worker that is gone without a word
    | CollectWriter | CollectReader      // the await on the other worker
    | CoordSends(packet: Packet) | CoordCloses

  predicate CanStep(s: State, step: Step) {
    match step
    case CreateDevice(_) => s.pc == Creating
    case ReaderStops => s.reader == Reading && s.stopReader
    case ReaderReads(_) => s.reader == Reading
    case WriterStops => s.writer == Waiting && s.stopWriter
    case WriterTakes => s.writer == Waiting && s.channel != []
    case WriterFindsClosed => s.writer == Waiting && s.channel == [] && s.channelClosed
    case WriterWrites(_) => s.writer.Writing?
    case HearReader => s.pc == Selecting && s.readerWord.Some?
    case HearWriter => s.pc == Selecting && s.writerWord.Some?
    case MissReader => (s.pc == Selecting || s.pc.AwaitReader?) && s.reader == ReaderDone && s.readerWord.None?
    case MissWriter => (s.pc == Selecting || s.pc.AwaitWriter?) && s.writer == WriterDone && s.writerWord.None?
    case CollectWriter => s.pc.AwaitWriter? && s.writerWord.Some?
    case CollectReader => s.pc.AwaitReader? && s.readerWord.Some?
    case CoordSends(_) => !s.channelClosed && |s.channel| < CHANNEL_CAPACITY
    case CoordCloses => !s.channelClosed
  }

  function EndReader(s: State, e: TunEvent): (r: State) {
    s.(reader := ReaderDone, readerWord := Some(e))
  }

  function EndWriter(s: State, e: TunEvent): (r: State) {
    s.(writer := WriterDone, writerWord := Some(e), owner := LastWord)
  }

  /** A worker meets a device error: it ends, or carries on. */
  function ReadFailed(s: State, kind: ErrorKind): (r: State) {
    match ClassifyTunError(kind)
    case ReconnectRequired => EndReader(s, ReconnectRequired)
    case FatalError => EndReader(s, FatalError)
    case _ => s
  }

  function WriteFailed(s: State, kind: ErrorKind): (r: State) {
    match ClassifyTunError(kind)
    case ReconnectRequired => EndWriter(s, ReconnectRequired)
    case FatalError => EndWriter(s, FatalError)
    case _ => s.(writer := Waiting)
  }

  /** What the supervisor does once both workers are gone (src/tun.rs:124-132, 156-164). */
  function Conclude(s: State, e: TunEvent): (r: State) {
    match e
    case ReconnectRequired => s.(pc := Creating)
    case FatalError => s.(pc := StoppedFatal)
    case _ => s.(pc := Creating, fellThrough := true)
  }

  function Next(s: State, step: Step): (r: State)
    requires CanStep(s, step)
  {
    match step
    case CreateDevice(ok) =>
      if !ok then s
      else s.(pc := Selecting, owner := WriterTask, epoch := s.epoch + 1,
              reader := Reading, readerWord := None, stopReader := false, lastRead := None,
              writer := Waiting, writerWord := None, stopWriter := false, lastMet := None)
    case ReaderStops => EndReader(s, Info)
    case ReaderReads(rr) =>
      var met := s.(lastRead := Some(rr));
      (match rr
       case Eof => EndReader(met, ReconnectRequired)
       case Data => met
       case CoordinatorGone => EndReader(met, FatalError)
       case ReadError(kind) => ReadFailed(met, kind))
    case WriterStops => EndWriter(s, Info)
    case WriterTakes => s.(writer := Writing(s.channel[0]), channel := s.channel[1..])
    case WriterFindsClosed => EndWriter(s.(lastMet := Some(FoundClosed)), FatalError)
    case WriterWrites(wr) =>
      var logged := s.(outcomes := s.outcomes + [Outcome(s.writer.packet, wr == Wrote)], lastMet := Some(Result(wr)));
      if wr.Wrote? then logged.(writer := Waiting) else WriteFailed(logged, wr.kind)
    case HearReader =>
      s.(pc := AwaitWriter(s.readerWord.value), readerWord := None, stopWriter := true,
         heard := s.heard + [FromReader(s.lastRead, s.readerWord.value)])
    case HearWriter =>
      s.(pc := AwaitReader(s.writerWord.value), writerWord := None, stopReader := true, owner := Supervisor,
         heard := s.heard + [FromWriter(s.lastMet, s.writerWord.value)])
    case MissReader => s.(pc := StoppedBroken)
    case MissWriter => s.(pc := StoppedBroken)
    case CollectWriter => Conclude(s.(writerWord := None, owner := Supervisor), s.pc.event)
    case CollectReader => Conclude(s.(readerWord := None), s.pc.event)
    case CoordSends(p) => s.(channel := s.channel + [p], sent := s.sent + [p])
    case CoordCloses => s.(channelClosed := true)
  }

  function Run(s: State, steps: seq<Step>): (r: Option<State>) {
    if steps == [] then Some(s)
    else
      match Run(s, steps[..|steps| - 1])
      case None => None
      case Some(s1) => if CanStep(s1, steps[|steps| - 1]) then Some(Next(s1, steps[|steps| - 1])) else None
  }

  predicate IsBooted(s: State) {
    s == State(Creating, NoReader, None, false, NoWriter, None, false, Supervisor, [], false, [], [], false, 0,
               None, None, [])
  }

  // ---- what every interleaving keeps

  /** The reader is at work, or has left its word; without a stop signal that word is decisive. */
  predicate ReaderSound(s: State) {
    || (s.reader == Reading && s.readerWord.None?)
    || (s.reader == ReaderDone && s.readerWord.Some? && (s.stopReader || Decisive(s.readerWord.value)))
  }

  predicate WriterSound(s: State) {
    || ((s.writer == Waiting || s.writer.Writing?) && s.writerWord.None? && s.owner == WriterTask)
    || (s.writer == WriterDone && s.writerWord.Some? && s.owner == LastWord && (s.stopWriter || Decisive(s.writerWord.value)))
  }

  predicate BothGone(s: State) {
    && (s.reader == NoReader || s.reader == ReaderDone)
    && (s.writer == NoWriter || s.writer == WriterDone)
    && s.owner == Supervisor
  }

  function InHand(s: State): (r: seq<Packet>) {
    if s.writer.Writing? then [s.writer.packet] else []
  }

  function Taken(outcomes: seq<Outcome>): (r: seq<Packet>) {
    seq(|outcomes|, i requires 0 <= i < |outcomes| => outcomes[i].packet)
  }

  /** Who is where. */
  predicate Control(s: State) {
    && !s.fellThrough
    && match s.pc
       case Creating => BothGone(s)
       case Selecting => ReaderSound(s) && WriterSound(s) && !s.stopReader && !s.stopWriter
       case AwaitWriter(e) => Decisive(e) && s.reader == ReaderDone && s.stopWriter && WriterSound(s)
       case AwaitReader(e) => Decisive(e) && s.writer == WriterDone && s.owner == Supervisor && s.stopReader && ReaderSound(s)
       case StoppedFatal => BothGone(s)
       case StoppedBroken => false
  }

  /** Nothing sent is lost, repeated or out of order. */
  predicate Flow(s: State) {
    s.sent == Taken(s.outcomes) + InHand(s) + s.channel
  }

  predicate OfReader(step: Step) {
    step.ReaderStops? || step.ReaderReads?
  }

  predicate OfWriter(step: Step) {
    step.WriterStops? || step.WriterTakes? || step.WriterFindsClosed? || step.WriterWrites?
  }

  lemma ReaderKeepsControl(s: State, step: Step)
    requires Control(s) && CanStep(s, step) && OfReader(step)
    ensures Control(Next(s, step))
  {}

  lemma WriterKeepsControl(s: State, step: Step)
    requires Control(s) && CanStep(s, step) && OfWriter(step)
    ensures Control(Next(s, step))
  {}

  lemma RestKeepsControl(s: State, step: Step)
    requires Control(s) && CanStep(s, step) && !OfReader(step) && !OfWriter(step)
    ensures Control(Next(s, step))
  {}

  lemma TakingKeepsFlow(s: State)
    requires Flow(s) && CanStep(s, WriterTakes)
    ensures Flow(Next(s, WriterTakes))
  {}

  lemma TakenSnoc(outcomes: seq<Outcome>, o: Outcome)
    ensures Taken(outcomes + [o]) == Taken(outcomes) + [o.packet]
  {}

  lemma WritingEmptiesHand(s: State, wr: WriteResult)
    requires CanStep(s, WriterWrites(wr))
    ensures var s' := Next(s, WriterWrites(wr));
            && InHand(s') == [] && s'.sent == s.sent && s'.channel == s.channel
            && s'.outcomes == s.outcomes + [Outcome(s.writer.packet, wr == Wrote)]
  {}

  lemma WritingKeepsFlow(s: State, wr: WriteResult)
    requires Flow(s) && CanStep(s, WriterWrites(wr))
    ensures Flow(Next(s, WriterWrites(wr)))
  {
    WritingEmptiesHand(s, wr);
    TakenSnoc(s.outcomes, Outcome(s.writer.packet, wr == Wrote));
    var taken := Taken(s.outcomes) + [s.writer.packet];
    assert taken + [] == taken;
  }

  lemma WriterKeepsFlow(s: State, step: Step)
    requires Flow(s) && CanStep(s, step) && OfWriter(step)
    ensures Flow(Next(s, step))
  {
    if step.WriterTakes? {
      TakingKeepsFlow(s);
    } else if step.WriterWrites? {
      WritingKeepsFlow(s, step.wr);
    } else {
      assert InHand(Next(s, step)) == InHand(s);
    }
  }

  lemma RestKeepsFlow(s: State, step: Step)
    requires Flow(s) && Control(s) && CanStep(s, step) && !OfWriter(step)
    ensures Flow(Next(s, step))
  {
    var s' := Next(s, step);
    assert InHand(s') == InHand(s) && s'.outcomes == s.outcomes;
    if step.CoordSends? {
      assert Taken(s.outcomes) + InHand(s) + (s.channel + [step.packet]) == s.sent + [step.packet];
    }
  }

  // ---- the words of the workers

  /** A read after which the reader ends because the device is gone... */
  predicate ReadLost(rr: ReadResult) {
    rr == Eof || (rr.ReadError? && DeviceLost(rr.kind))
  }

  /** ... or because nothing more can be done. */
  predicate ReadFatal(rr: ReadResult) {
    rr == CoordinatorGone || (rr.ReadError? && !Transient(rr.kind) && !DeviceLost(rr.kind))
  }

  predicate WriteLost(met: WriterMet) {
    met.Result? && met.wr.WriteError? && DeviceLost(met.wr.kind)
  }

  predicate WriteFatal(met: WriterMet) {
    met == FoundClosed || (met.wr.WriteError? && !Transient(met.wr.kind) && !DeviceLost(met.wr.kind))
  }

  /** The word is the one that what the worker met calls for. */
  predicate Fits(word: TunEvent, lost: bool, fatal: bool) {
    && (word == ReconnectRequired <==> lost) && (word == FatalError <==> fatal)
    && (word == ReconnectRequired || word == FatalError || word == Info)
  }

  predicate ReadLostBy(read: Option<ReadResult>) { read.Some? && ReadLost(read.value) }

  predicate ReadFatalBy(read: Option<ReadResult>) { read.Some? && ReadFatal(read.value) }

  predicate WriteLostBy(met: Option<WriterMet>) { met.Some? && WriteLost(met.value) }

  predicate WriteFatalBy(met: Option<WriterMet>) { met.Some? && WriteFatal(met.value) }

  predicate ReaderTells(s: State) {
    && (s.reader == Reading ==> !ReadLostBy(s.lastRead) && !ReadFatalBy(s.lastRead))
    && (s.readerWord.Some? ==> Fits(s.readerWord.value, ReadLostBy(s.lastRead), ReadFatalBy(s.lastRead)))
    && (s.readerWord == Some(Info) ==> s.stopReader)
  }

  predicate WriterTells(s: State) {
    && (s.writer == Waiting || s.writer.Writing? ==> !WriteLostBy(s.lastMet) && !WriteFatalBy(s.lastMet))
    && (s.writerWord.Some? ==> Fits(s.writerWord.value, WriteLostBy(s.lastMet), WriteFatalBy(s.lastMet)))
    && (s.writerWord == Some(Info) ==> s.stopWriter)
    && (s.lastMet == Some(FoundClosed) ==> s.channelClosed && s.channel == [])
  }

  /** The word that ended an epoch was decisive and fits what its worker had met. */
  predicate HeardRight(h: Heard) {
    && Decisive(h.word)
    && match h
       case FromReader(read, word) => Fits(word, ReadLostBy(read), ReadFatalBy(read))
       case FromWriter(met, word) => Fits(word, WriteLostBy(met), WriteFatalBy(met))
  }

  ghost predicate AllReconnected(heard: seq<Heard>) {
    forall i :: 0 <= i < |heard| ==> heard[i].word == ReconnectRequired
  }

  /** Both workers are gone, and their last words and the receiver are back. */
  predicate Collected(s: State) {
    BothGone(s) && s.readerWord.None? && s.writerWord.None?
  }

  /** The last word heard, in the epoch that it ended. */
  ghost predicate LastHeard(s: State, word: TunEvent) {
    && |s.heard| == s.epoch > 0 && s.heard[s.epoch - 1].word == word && AllReconnected(s.heard[..s.epoch - 1])
  }

  ghost predicate EpochLog(s: State) {
    && (forall i :: 0 <= i < |s.heard| ==> HeardRight(s.heard[i]))
    && match s.pc
       case Creating => Collected(s) && |s.heard| == s.epoch && AllReconnected(s.heard)
       case Selecting => |s.heard| + 1 == s.epoch && AllReconnected(s.heard)
       case AwaitWriter(e) => LastHeard(s, e) && s.heard[s.epoch - 1].FromReader? && s.readerWord.None?
       case AwaitReader(e) => LastHeard(s, e) && s.heard[s.epoch - 1].FromWriter? && s.writerWord.None?
       case StoppedFatal => Collected(s) && LastHeard(s, FatalError)
       case StoppedBroken => false
  }

  ghost predicate Told(s: State) {
    ReaderTells(s) && WriterTells(s) && EpochLog(s)
  }

  /** A worker's step changes nothing of the supervisor's. */
  lemma ReaderStays(s: State, step: Step)
    requires Control(s) && CanStep(s, step) && OfReader(step)
    ensures var s' := Next(s, step);
            && s'.pc == s.pc && s'.heard == s.heard && s'.epoch == s.epoch && s'.writer == s.writer
            && s'.writerWord == s.writerWord && s'.stopWriter == s.stopWriter && s'.lastMet == s.lastMet
            && (s.pc.Selecting? || s.pc.AwaitReader?)
  {}

  lemma ReadTells(s: State, rr: ReadResult)
    requires s.reader == Reading && s.readerWord.None?
    ensures ReaderTells(Next(s, ReaderReads(rr)))
  {}

  lemma ReaderStepTells(s: State, step: Step)
    requires CanStep(s, step) && OfReader(step) && ReaderTells(s) && s.readerWord.None? && s.reader == Reading
    ensures ReaderTells(Next(s, step))
  {
    if step.ReaderReads? { ReadTells(s, step.rr); }
  }

  lemma ReaderKeepsTold(s: State, step: Step)
    requires Control(s) && Told(s) && CanStep(s, step) && OfReader(step)
    ensures Told(Next(s, step))
  {
    ReaderStays(s, step);
    ReaderStepTells(s, step);
  }

  lemma WriterStays(s: State, step: Step)
    requires Control(s) && CanStep(s, step) && OfWriter(step)
    ensures var s' := Next(s, step);
            && s'.pc == s.pc && s'.heard == s.heard && s'.epoch == s.epoch && s'.reader == s.reader
            && s'.readerWord == s.readerWord && s'.stopReader == s.stopReader && s'.lastRead == s.lastRead
            && (s.pc.Selecting? || s.pc.AwaitWriter?)
  {}

  lemma WriteTells(s: State, wr: WriteResult)
    requires s.writer.Writing? && s.writerWord.None?
    ensures WriterTells(Next(s, WriterWrites(wr)))
  {}

  lemma WriterStepTells(s: State, step: Step)
    requires CanStep(s, step) && OfWriter(step) && WriterTells(s) && s.writerWord.None?
    ensures WriterTells(Next(s, step))
  {
    if step.WriterWrites? { WriteTells(s, step.wr); }
  }

  lemma WriterKeepsTold(s: State, step: Step)
    requires Control(s) && Told(s) && CanStep(s, step) && OfWriter(step)
    ensures Told(Next(s, step))
  {
    WriterStays(s, step);
    WriterStepTells(s, step);
  }

  lemma HearingKeepsTold(s: State, step: Step)
    requires Control(s) && Told(s) && CanStep(s, step) && (step.HearReader? || step.HearWriter?)
    ensures Told(Next(s, step))
  {
    assert Next(s, step).heard[..s.epoch - 1] == s.heard;
  }

  lemma CollectingKeepsTold(s: State, step: Step)
    requires Control(s) && Told(s) && CanStep(s, step) && (step.CollectWriter? || step.CollectReader?)
    ensures Told(Next(s, step))
  {
    if step.CollectWriter? { CollectingWriter(s); } else { CollectingReader(s); }
  }

  lemma CollectingWriter(s: State)
    requires Control(s) && Told(s) && CanStep(s, CollectWriter)
    ensures Told(Next(s, CollectWriter))
  {
    if s.pc.event == ReconnectRequired { HeardExtends(s); }
  }

  lemma CollectingReader(s: State)
    requires Control(s) && Told(s) && CanStep(s, CollectReader)
    ensures Told(Next(s, CollectReader))
  {
    if s.pc.event == ReconnectRequired { HeardExtends(s); }
  }

  /** With the last word, too, no epoch was ended by anything but a lost device. */
  lemma HeardExtends(s: State)
    requires LastHeard(s, ReconnectRequired)
    ensures AllReconnected(s.heard)
  {
    assert s.heard == s.heard[..s.epoch - 1] + [s.heard[s.epoch - 1]];
  }

  lemma RestKeepsTold(s: State, step: Step)
    requires Control(s) && Told(s) && CanStep(s, step) && (step.CreateDevice? || OfCoordinator(step))
    ensures Told(Next(s, step))
  {}

  lemma StepKeepsTold(s: State, step: Step)
    requires Control(s) && Told(s) && CanStep(s, step)
    ensures Told(Next(s, step))
  {
    if OfReader(step) {
      ReaderKeepsTold(s, step);
    } else if OfWriter(step) {
      WriterKeepsTold(s, step);
    } else if step.HearReader? || step.HearWriter? {
      HearingKeepsTold(s, step);
    } else if step.CollectWriter? || step.CollectReader? {
      CollectingKeepsTold(s, step);
    } else {
      RestKeepsTold(s, step);
    }
  }

  // ---- everything together

  ghost predicate Inv(s: State) {
    Control(s) && Flow(s) && Told(s)
  }

  lemma StepKeepsInv(s: State, step: Step)
    requires Inv(s) && CanStep(s, step)
    ensures Inv(Next(s, step))
  {
    StepKeepsTold(s, step);
    if OfReader(step) {
      ReaderKeepsControl(s, step);
      RestKeepsFlow(s, step);
    } else if OfWriter(step) {
      WriterKeepsControl(s, step);
      WriterKeepsFlow(s, step);
    } else {
      RestKeepsControl(s, step);
      RestKeepsFlow(s, step);
    }
  }

  lemma {:induction false} RunKeepsInv(s: State, steps: seq<Step>)
    requires IsBooted(s) && Run(s, steps).Some?
    ensures Inv(Run(s, steps).value)
  {
    if steps != [] {
      var n := |steps| - 1;
      RunKeepsInv(s, steps[..n]);
      StepKeepsInv(Run(s, steps[..n]).value, steps[n]);
    }
  }

  /** Supervisor epochs, under every interleaving: the supervisor is about to create a device, or has stopped, only with
      the receiver back in its hands and both workers gone; no arm marked impossible is taken and no worker vanishes
      without its last word. Over all epochs the packets taken from the channel, the one being written and those still
      queued are exactly what the coordinator sent, in order: each is written once or lost to one failed write. */
  lemma SupervisorEpochs(s: State, steps: seq<Step>)
    requires IsBooted(s) && Run(s, steps).Some?
    ensures var r := Run(s, steps).value;
            && (r.pc == Creating || r.pc == StoppedFatal ==> BothGone(r))
            && r.pc != StoppedBroken && !r.fellThrough
            && !CanStep(r, MissReader) && !CanStep(r, MissWriter)
            && r.sent == Taken(r.outcomes) + InHand(r) + r.channel
  {
    RunKeepsInv(s, steps);
  }

  lemma RunSnoc(s: State, steps: seq<Step>, step: Step)
    requires Run(s, steps).Some? && CanStep(Run(s, steps).value, step)
    ensures Run(s, steps + [step]) == Some(Next(Run(s, steps).value, step))
  {}

  /** While the supervisor waits for the other worker, the next step towards the end of the epoch is possible. */
  function Towards(s: State, wr: WriteResult): (step: Step) {
    if s.pc.AwaitWriter? then
      if s.writer.Writing? then WriterWrites(wr) else if s.writer == Waiting then WriterStops else CollectWriter
    else
      if s.reader == Reading then ReaderStops else CollectReader
  }

  /** Steps of the workers and the supervisor that the epoch still takes, once one worker has been heard. */
  function Distance(s: State): (d: nat) {
    match s.pc
    case AwaitWriter(_) => if s.writer.Writing? then 3 else if s.writer == Waiting then 2 else 1
    case AwaitReader(_) => if s.reader == Reading then 2 else 1
    case Selecting => 4
    case _ => 0
  }

  predicate Awaiting(s: State) {
    s.pc.AwaitWriter? || s.pc.AwaitReader?
  }

  lemma TowardsAdvances(s: State, wr: WriteResult)
    requires Control(s) && Awaiting(s)
    ensures CanStep(s, Towards(s, wr))
    ensures var s' := Next(s, Towards(s, wr));
            Distance(s') < Distance(s) && s'.epoch == s.epoch
  {}

  lemma OneStepBack(s: State, steps: seq<Step>, wr: WriteResult) returns (longer: seq<Step>)
    requires IsBooted(s) && Run(s, steps).Some? && Awaiting(Run(s, steps).value)
    ensures |longer| == |steps| + 1 && steps <= longer && Run(s, longer).Some?
    ensures Distance(Run(s, longer).value) < Distance(Run(s, steps).value)
    ensures Run(s, longer).value.epoch == Run(s, steps).value.epoch
  {
    RunKeepsInv(s, steps);
    var r := Run(s, steps).value;
    TowardsAdvances(r, wr);
    RunSnoc(s, steps, Towards(r, wr));
    longer := steps + [Towards(r, wr)];
  }

  lemma {:induction false} EpochEnds(s: State, steps: seq<Step>, wr: WriteResult, left: nat) returns (longer: seq<Step>)
    requires IsBooted(s) && Run(s, steps).Some? && Awaiting(Run(s, steps).value)
    requires Distance(Run(s, steps).value) <= left <= 3
    ensures |longer| <= |steps| + left && steps <= longer && Run(s, longer).Some?
    ensures Distance(Run(s, longer).value) == 0
    ensures Run(s, longer).value.epoch == Run(s, steps).value.epoch
    decreases left
  {
    longer := OneStepBack(s, steps, wr);
    if Distance(Run(s, longer).value) > 0 {
      longer := EpochEnds(s, longer, wr, left - 1);
    }
  }

  /** The receiver can always come back: once the supervisor has heard one worker, the other is never stuck, and some
      three or fewer steps of theirs, whatever a pending write returns, end the epoch with the receiver back and both
      workers gone. */
  lemma ReceiverComesBack(s: State, steps: seq<Step>, wr: WriteResult) returns (longer: seq<Step>)
    requires IsBooted(s) && Run(s, steps).Some? && Awaiting(Run(s, steps).value)
    ensures steps <= longer && |longer| <= |steps| + 3 && Run(s, longer).Some?
    ensures BothGone(Run(s, longer).value) && Run(s, longer).value.epoch == Run(s, steps).value.epoch
  {
    longer := EpochEnds(s, steps, wr, 3);
    RunKeepsInv(s, longer);
  }

  // ---- how an epoch ends

  lemma EarlierReconnected(s: State)
    requires EpochLog(s)
    ensures forall i :: 0 <= i < |s.heard| - 1 ==> s.heard[i].word == ReconnectRequired
  {
    forall i | 0 <= i < |s.heard| - 1 ensures s.heard[i].word == ReconnectRequired {
      assert |s.heard| == s.epoch ==> s.heard[i] == s.heard[..s.epoch - 1][i];
    }
  }

  lemma WaitingIsUncollected(s: State)
    requires Control(s) && (s.pc == Selecting || Awaiting(s))
    ensures !Collected(s)
  {}

  lemma EndsExactly(s: State)
    requires Control(s) && EpochLog(s)
    ensures s.pc == StoppedFatal <==> Collected(s) && s.heard != [] && s.heard[|s.heard| - 1].word == FatalError
    ensures s.pc == Creating <==> Collected(s) && (s.heard == [] || s.heard[|s.heard| - 1].word == ReconnectRequired)
    ensures s.pc == Creating ==> |s.heard| == s.epoch
  {
    if s.pc == Selecting || Awaiting(s) { WaitingIsUncollected(s); }
  }

  /** Why epochs end, over every run. Each epoch was ended by the first worker heard, with the word that its last read or
      write calls for, and every one but the last by a lost device. The supervisor has stopped if and only if the last
      word was fatal and both workers have been collected; it is about to create a device if and only if they have and
      no word was fatal, and then the next epoch starts with the channel as it is. */
  lemma EpochsEndAsHeard(s: State, steps: seq<Step>)
    requires IsBooted(s) && Run(s, steps).Some?
    ensures var r := Run(s, steps).value;
            && (forall i :: 0 <= i < |r.heard| ==> HeardRight(r.heard[i]))
            && (forall i :: 0 <= i < |r.heard| - 1 ==> r.heard[i].word == ReconnectRequired)
            && (r.pc == StoppedFatal <==> Collected(r) && r.heard != [] && r.heard[|r.heard| - 1].word == FatalError)
            && (r.pc == Creating <==>
                  Collected(r) && (r.heard == [] || r.heard[|r.heard| - 1].word == ReconnectRequired))
            && (r.pc == Creating ==>
                  && CanStep(r, CreateDevice(true))
                  && var up := Next(r, CreateDevice(true));
                     up.pc == Selecting && up.channel == r.channel && up.owner == WriterTask && up.epoch == |r.heard| + 1)
  {
    RunKeepsInv(s, steps);
    var r := Run(s, steps).value;
    EarlierReconnected(r);
    EndsExactly(r);
  }

  /** Why a worker ends, over every run, stated on the kinds and results: a worker still at work has met nothing that
      ends it; a last word asks to reconnect exactly if the last read gave no bytes, or the device was lost; it is fatal
      exactly if a channel was closed, or the kind is none of the listed ones; anything else is the answer to a stop
      signal. A channel is found closed only once it is drained. */
  lemma WordsFitResults(s: State, steps: seq<Step>)
    requires IsBooted(s) && Run(s, steps).Some?
    ensures ReaderTells(Run(s, steps).value) && WriterTells(Run(s, steps).value)
  {
    RunKeepsInv(s, steps);
  }

  /** A transient error, or none, costs at most the packet in hand: the worker goes on, with everything else as it was. */
  lemma TransientErrorsPass(s: State, rr: ReadResult, wr: WriteResult)
    ensures s.reader == Reading && (rr == Data || (rr.ReadError? && Transient(rr.kind))) ==>
              CanStep(s, ReaderReads(rr)) && Next(s, ReaderReads(rr)) == s.(lastRead := Some(rr))
    ensures s.writer.Writing? && (wr == Wrote || Transient(wr.kind)) ==>
              && CanStep(s, WriterWrites(wr))
              && Next(s, WriterWrites(wr))
                 == s.(writer := Waiting, lastMet := Some(Result(wr)),
                       outcomes := s.outcomes + [Outcome(s.writer.packet, wr == Wrote)])
  {}

  // ---- which packets were written

  function WriteOf(): (f: Step -> seq<bool>) {
    (step: Step) => if step.WriterWrites? then [step.wr == Wrote] else []
  }

  function Flags(outcomes: seq<Outcome>): (r: seq<bool>) {
    seq(|outcomes|, i requires 0 <= i < |outcomes| => outcomes[i].written)
  }

  lemma FlagsSnoc(outcomes: seq<Outcome>, o: Outcome)
    ensures Flags(outcomes + [o]) == Flags(outcomes) + [o.written]
  {}

  lemma OnlyWritesLog(s: State, step: Step)
    requires CanStep(s, step)
    ensures Next(s, step).outcomes
         == s.outcomes + if step.WriterWrites? then [Outcome(s.writer.packet, step.wr == Wrote)] else []
  {
    if step.WriterWrites? {
      WritingEmptiesHand(s, step.wr);
    } else if !OfReader(step) && !OfWriter(step) {
      SupervisorSendsNothing(s, step);
    }
  }

  lemma StepLogs(s: State, step: Step)
    requires CanStep(s, step)
    ensures Flags(Next(s, step).outcomes) == Flags(s.outcomes) + WriteOf()(step)
  {
    OnlyWritesLog(s, step);
    if step.WriterWrites? {
      FlagsSnoc(s.outcomes, Outcome(s.writer.packet, step.wr == Wrote));
    } else {
      assert s.outcomes + [] == s.outcomes;
      assert Flags(s.outcomes) + [] == Flags(s.outcomes);
    }
  }

  /** The outcomes tell exactly which writes of the run succeeded, in order. */
  lemma {:induction false} OutcomesTell(s: State, steps: seq<Step>)
    requires IsBooted(s) && Run(s, steps).Some?
    ensures Flags(Run(s, steps).value.outcomes) == Pick(steps, WriteOf())
  {
    if steps != [] {
      var n := |steps| - 1;
      OutcomesTell(s, steps[..n]);
      StepLogs(Run(s, steps[..n]).value, steps[n]);
    }
  }

  function SentBy(): (f: Step -> seq<Packet>) {
    (step: Step) => if step.CoordSends? then [step.packet] else []
  }

  lemma OnlyCoordSends(s: State, step: Step)
    requires CanStep(s, step)
    ensures Next(s, step).sent == s.sent + SentBy()(step)
    ensures Next(s, step).channelClosed <==> s.channelClosed || step.CoordCloses?
  {
    if OfReader(step) {
      ReaderSendsNothing(s, step);
    } else if OfWriter(step) {
      WriterSendsNothing(s, step);
    } else {
      SupervisorSendsNothing(s, step);
    }
  }

  lemma ReaderSendsNothing(s: State, step: Step)
    requires CanStep(s, step) && OfReader(step)
    ensures Next(s, step).sent == s.sent && Next(s, step).channelClosed == s.channelClosed
  {}

  lemma WriterSendsNothing(s: State, step: Step)
    requires CanStep(s, step) && OfWriter(step)
    ensures Next(s, step).sent == s.sent && Next(s, step).channelClosed == s.channelClosed
  {}

  lemma SupervisorSendsNothing(s: State, step: Step)
    requires CanStep(s, step) && !OfReader(step) && !OfWriter(step)
    ensures var s' := Next(s, step);
            && s'.outcomes == s.outcomes
            && (!OfCoordinator(step) ==> s'.sent == s.sent && s'.channelClosed == s.channelClosed)
  {}

  /** Everything the coordinator sent during a run, and nothing else, has been taken, is in the writer's hand or waits in
      the channel, in order; and the channel is closed exactly if the coordinator closed it. */
  lemma {:induction false} ChannelTells(s: State, steps: seq<Step>)
    requires IsBooted(s) && Run(s, steps).Some?
    ensures var r := Run(s, steps).value;
            && Taken(r.outcomes) + InHand(r) + r.channel == Pick(steps, SentBy()) == r.sent
            && (r.channelClosed <==> CoordCloses in steps)
  {
    RunKeepsInv(s, steps);
    if steps != [] {
      var n := |steps| - 1;
      ChannelTells(s, steps[..n]);
      OnlyCoordSends(Run(s, steps[..n]).value, steps[n]);
      assert steps == steps[..n] + [steps[n]];
    }
  }

  // ---- under any schedule

  /** How far an awaited worker is from its end at most: it may still empty the channel. */
  function Left(s: State): (d: nat) {
    match s.pc
    case AwaitWriter(_) => 2 * |s.channel| + (if s.writer.Writing? then 3 else if s.writer == Waiting then 2 else 1)
    case AwaitReader(_) => if s.reader == Reading then 2 else 1
    case _ => 0
  }

  predicate OfCoordinator(step: Step) {
    step.CoordSends? || step.CoordCloses?
  }

  /** A step of the workers or the supervisor, other than a read after which the reader goes on reading. */
  predicate Effective(s: State, step: Step)
    requires CanStep(s, step)
  {
    !OfCoordinator(step) && !(step.ReaderReads? && Next(s, step).reader == Reading)
  }

  lemma AwaitingLowers(s: State, step: Step)
    requires Control(s) && Awaiting(s) && CanStep(s, step)
    ensures Left(Next(s, step)) + (if Effective(s, step) then 1 else 0) <= Left(s) + (if step.CoordSends? then 2 else 0)
  {}

  function Sends(steps: seq<Step>): (n: nat) {
    if steps == [] then 0 else Sends(steps[..|steps| - 1]) + if steps[|steps| - 1].CoordSends? then 1 else 0
  }

  /** The effective steps of a schedule. */
  function Effort(s: State, steps: seq<Step>): (n: nat) {
    if steps == [] then 0
    else
      var n := |steps| - 1;
      match Run(s, steps[..n])
      case None => 0
      case Some(s1) => Effort(s, steps[..n]) + if CanStep(s1, steps[n]) && Effective(s1, steps[n]) then 1 else 0
  }

  /** The supervisor still waits when the last step is taken, and waited at every one before. */
  ghost predicate WaitsThrough(s: State, steps: seq<Step>) {
    forall i :: 0 <= i < |steps| ==> Run(s, steps[..i]).Some? && Awaiting(Run(s, steps[..i]).value)
  }

  lemma {:induction false} EffortIsBounded(s: State, steps: seq<Step>)
    requires Inv(s) && Run(s, steps).Some? && WaitsThrough(s, steps)
    ensures Inv(Run(s, steps).value) && Effort(s, steps) + Left(Run(s, steps).value) <= Left(s) + 2 * Sends(steps)
  {
    if steps != [] {
      var n := |steps| - 1;
      forall i | 0 <= i < n ensures Run(s, steps[..n][..i]).Some? && Awaiting(Run(s, steps[..n][..i]).value) {
        assert steps[..n][..i] == steps[..i];
      }
      EffortIsBounded(s, steps[..n]);
      StepKeepsInv(Run(s, steps[..n]).value, steps[n]);
      AwaitingLowers(Run(s, steps[..n]).value, steps[n]);
    }
  }

  /** Under any schedule: from where the supervisor begins to wait for the other worker, as long as it waits, the workers
      and the supervisor take no more effective steps than twice the packets queued and those still sent, plus three; and
      at every point a step towards the end of the epoch is possible. So only a reader that keeps reading, or a
      coordinator that keeps sending, can hold the receiver back. */
  lemma AwaitIsBounded(s: State, steps: seq<Step>, more: seq<Step>, wr: WriteResult)
    requires IsBooted(s) && Run(s, steps).Some?
    requires Run(Run(s, steps).value, more).Some? && WaitsThrough(Run(s, steps).value, more)
    ensures var r := Run(s, steps).value;
            var now := Run(r, more).value;
            && Effort(r, more) <= 2 * (|r.channel| + Sends(more)) + 3
            && (Awaiting(now) ==> CanStep(now, Towards(now, wr)) && Effective(now, Towards(now, wr)))
  {
    RunKeepsInv(s, steps);
    var r := Run(s, steps).value;
    EffortIsBounded(r, more);
    if Awaiting(Run(r, more).value) { TowardsAdvances(Run(r, more).value, wr); }
  }
}
