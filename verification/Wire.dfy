/** What travels: subscription keys, parsed frames, ordering values, and the routing of one to
the others. */
module Wire {
  import opened Books

  datatype Option<+T> = None | Some(value: T)

  /** One subscription. The aggregation parameters are part of its identity. */
  datatype SubKey =
    | Trades(coin: string)
    | L2Book(coin: string, nSigFigs: Option<nat>, nLevels: Option<nat>, mantissa: Option<nat>)
    | L2Diff(coin: string, nSigFigs: Option<nat>, nLevels: Option<nat>, mantissa: Option<nat>)
    | L4Book(coin: string)
    | Bbo(coin: string)
    | OrderUpdates(user: string)
    | BookDiffs(coin: string)
  {
    function Normalized(): SubKey {
      match this
      case OrderUpdates(user) => OrderUpdates(Lowercase(user))
      case L2Book(coin, sf, n, m) => L2Book(coin, sf, FoldDefault(n), m)
      case L2Diff(coin, sf, n, m) => L2Diff(coin, sf, FoldDefault(n), m)
      case _ => this
    }

    /** Whether one source carries the whole stream rather than the sources taking turns. */
    predicate SingleSourced() {
      L2Diff? || L2Book?
    }

    /** Whether the channel streams increments against a prior snapshot. */
    predicate IsIncremental() {
      L4Book? || L2Diff?
    }
  }

  const DEFAULT_L2_LEVELS: nat := 20

  function FoldDefault(n: Option<nat>): Option<nat> {
    if n == Some(DEFAULT_L2_LEVELS) then None else n
  }

  function LowerChar(c: char): char {
    if 'A' <= c <= 'Z' then c - 'A' + 'a' else c
  }

  function Lowercase(s: string): string {
    seq(|s|, i requires 0 <= i < |s| => LowerChar(s[i]))
  }

  /** How a frame orders against the frames already seen for its key. */
  datatype Seq =
    | Point(stamp: nat)
    | Block(stamp: nat)
    | Lead(stamp: nat)
    | Sticky(stamp: nat)
    | Snapshot(stamp: nat)

  datatype TradeHead = TradeHead(coin: string, tid: nat)

  datatype OrderUpdateHead = OrderUpdateHead(user: string, height: nat)

  datatype L2DiffHead = L2DiffHead(
    coin: string, height: nat, nSigFigs: Option<nat>, nLevels: Option<nat>, mantissa: Option<nat>)
  {
    function Key(): SubKey {
      L2Diff(coin, nSigFigs, nLevels, mantissa)
    }
  }

  /** A parsed upstream frame. Beyond the fields routing reads, only the `l2Diff` book contents
      are kept; an `l4Book` update keeps the coins of its two arrays. */
  datatype Frame =
    | BboFrame(coin: string, time: nat)
    | L2BookFrame(coin: string, time: nat, nSigFigs: Option<nat>, nLevels: Option<nat>, mantissa: Option<nat>)
    | TradesFrame(trades: seq<TradeHead>)
    | OrderUpdatesFrame(updates: seq<OrderUpdateHead>)
    | L4SnapshotFrame(coin: string, height: nat)
    | L4UpdatesFrame(height: nat, statusCoins: seq<string>, diffCoins: seq<string>)
    | L2DiffSnapshotFrame(head: L2DiffHead, bidLevels: seq<Level>, askLevels: seq<Level>)
    | L2DiffUpdatesFrame(head: L2DiffHead, bids: SideDiff, asks: SideDiff)
    | ErrorFrame(msg: string)

  /** The text forwarded to clients: what it parses to, how many bytes it has, and a serial that
      tells apart frames that differ only in content the model does not keep. */
  datatype Payload = Payload(frame: Frame, len: nat, serial: nat)

  /** A payload in flight, with the source it came from and the value it is ordered by. */
  datatype Msg = Msg(src: nat, ord: Seq, payload: Payload)

  // ---------- Routing ----------

  function MaxTid(v: seq<TradeHead>): (r: nat)
    requires v != []
    ensures exists i :: 0 <= i < |v| && v[i].tid == r
    ensures forall i :: 0 <= i < |v| ==> v[i].tid <= r
  {
    if |v| == 1 then v[0].tid
    else
      var rest := MaxTid(v[..|v| - 1]);
      var tid := v[|v| - 1].tid;
      if tid >= rest then tid else rest
  }

  function MaxHeight(v: seq<OrderUpdateHead>): (r: nat)
    requires v != []
    ensures exists i :: 0 <= i < |v| && v[i].height == r
    ensures forall i :: 0 <= i < |v| ==> v[i].height <= r
  {
    if |v| == 1 then v[0].height
    else
      var rest := MaxHeight(v[..|v| - 1]);
      var h := v[|v| - 1].height;
      if h >= rest then h else rest
  }

  function RouteRaw(frame: Frame): Option<(SubKey, Seq)> {
    match frame
    case BboFrame(coin, time) => Some((Bbo(coin), Lead(time)))
    case L2BookFrame(coin, time, sf, n, m) => Some((L2Book(coin, sf, n, m), Sticky(time)))
    case TradesFrame(v) =>
      if v == [] then None else Some((Trades(v[0].coin), Point(MaxTid(v))))
    case OrderUpdatesFrame(v) =>
      if v == [] then None else Some((OrderUpdates(Lowercase(v[0].user)), Block(MaxHeight(v))))
    case L4SnapshotFrame(coin, height) => Some((L4Book(coin), Snapshot(height)))
    case L2DiffSnapshotFrame(head, _, _) => Some((head.Key(), Snapshot(head.height)))
    case L2DiffUpdatesFrame(head, _, _) => Some((head.Key(), Sticky(head.height)))
    case L4UpdatesFrame(height, statusCoins, diffCoins) =>
      if statusCoins != [] then Some((L4Book(statusCoins[0]), Block(height)))
      else if diffCoins != [] then Some((L4Book(diffCoins[0]), Block(height)))
      else None
    case ErrorFrame(_) => None
  }

  function Route(frame: Frame): Option<(SubKey, Seq)> {
    match RouteRaw(frame)
    case None => None
    case Some((key, ord)) => Some((key.Normalized(), ord))
  }

  /** The modes a channel's frames are ever arbitrated under. */
  predicate Routable(key: SubKey, ord: Seq) {
    match key
    case Trades(_) => ord.Point?
    case Bbo(_) => ord.Lead?
    case L2Book(_, _, _, _) => ord.Sticky?
    case L2Diff(_, _, _, _) => ord.Sticky? || ord.Snapshot?
    case L4Book(_) => ord.Block? || ord.Snapshot?
    case OrderUpdates(_) => ord.Block?
    case BookDiffs(_) => false
  }

  lemma LowercaseIdempotent(s: string)
    ensures Lowercase(Lowercase(s)) == Lowercase(s)
  {
  }

  /** Every routed frame lands on a key spelled the way a client's normalised request is, and under
      the one mode its channel is arbitrated by. */
  lemma RoutedAsDocumented(frame: Frame)
    ensures Route(frame).Some? ==>
              var (key, ord) := Route(frame).value;
              Routable(key, ord) && key.Normalized() == key
  {
    match RouteRaw(frame)
    case None =>
    case Some((key, _)) =>
      if key.OrderUpdates? {
        LowercaseIdempotent(key.user);
      }
  }

  // ---------- Which frames answer a request ----------

  /** The same letter, up to the case of an ASCII letter. */
  predicate SameLetter(a: char, b: char) {
    || a == b
    || (65 <= a as int <= 90 && b as int == a as int + 32)
    || (65 <= b as int <= 90 && a as int == b as int + 32)
  }

  ghost predicate SameUser(u: string, v: string) {
    |u| == |v| && forall i :: 0 <= i < |u| ==> SameLetter(u[i], v[i])
  }

  /** Asking for twenty levels is asking for the default. */
  predicate SameLevels(n: Option<nat>, m: Option<nat>) {
    n == m || ((n.None? || n.value == 20) && (m.None? || m.value == 20))
  }

  ghost predicate SameDiff(head: L2DiffHead, request: SubKey) {
    && request.L2Diff? && head.coin == request.coin && head.nSigFigs == request.nSigFigs
    && head.mantissa == request.mantissa && SameLevels(head.nLevels, request.nLevels)
  }

  /** The frame is one of those a client asked for: the same channel, and field by field the same
      subscription. */
  ghost predicate IsFor(frame: Frame, request: SubKey) {
    match frame
    case BboFrame(coin, _) => request.Bbo? && request.coin == coin
    case L2BookFrame(coin, _, sf, n, m) =>
      && request.L2Book? && request.coin == coin && request.nSigFigs == sf && request.mantissa == m
      && SameLevels(request.nLevels, n)
    case TradesFrame(v) => request.Trades? && v != [] && v[0].coin == request.coin
    case OrderUpdatesFrame(v) => request.OrderUpdates? && v != [] && SameUser(v[0].user, request.user)
    case L4SnapshotFrame(coin, _) => request.L4Book? && request.coin == coin
    case L4UpdatesFrame(_, status, diffs) =>
      request.L4Book? && if status != [] then status[0] == request.coin else diffs != [] && diffs[0] == request.coin
    case L2DiffSnapshotFrame(head, _, _) => SameDiff(head, request)
    case L2DiffUpdatesFrame(head, _, _) => SameDiff(head, request)
    case ErrorFrame(_) => false
  }

  lemma LettersFold(a: char, b: char)
    ensures LowerChar(a) == LowerChar(b) <==> SameLetter(a, b)
  {
  }

  lemma UsersFold(u: string, v: string)
    ensures Lowercase(u) == Lowercase(v) <==> SameUser(u, v)
  {
    hide LowerChar, SameLetter;
    if Lowercase(u) == Lowercase(v) {
      assert |u| == |Lowercase(u)| == |v|;
      forall i | 0 <= i < |u| ensures SameLetter(u[i], v[i]) {
        assert Lowercase(u)[i] == Lowercase(v)[i];
        LettersFold(u[i], v[i]);
      }
    }
    if SameUser(u, v) {
      forall i | 0 <= i < |u| ensures Lowercase(u)[i] == Lowercase(v)[i] {
        LettersFold(u[i], v[i]);
      }
    }
  }

  /** A frame reaches a client exactly when it is one of those the client asked for: it is routed to the
      key the client's request is filed under. */
  lemma ReachesWhoAskedIff(frame: Frame, request: SubKey)
    ensures (Route(frame).Some? && Route(frame).value.0 == request.Normalized()) <==> IsFor(frame, request)
  {
    hide Lowercase, SameUser, MaxTid, MaxHeight;
    if frame.OrderUpdatesFrame? && frame.updates != [] {
      LowercaseIdempotent(frame.updates[0].user);
      if request.OrderUpdates? {
        UsersFold(frame.updates[0].user, request.user);
      }
    }
  }

  /** Every frame is for somebody, but for errors and empty batches. */
  lemma RoutedIff(frame: Frame)
    ensures Route(frame).Some? <==> exists request :: IsFor(frame, request)
  {
    if Route(frame).Some? {
      var key := Route(frame).value.0;
      RoutedAsDocumented(frame);
      ReachesWhoAskedIff(frame, key);
      assert IsFor(frame, key);
    }
    if request :| IsFor(frame, request) {
      ReachesWhoAskedIff(frame, request);
    }
  }

  ghost predicate IsNewestTid(v: seq<TradeHead>, tid: nat) {
    (exists i :: 0 <= i < |v| && v[i].tid == tid) && forall i :: 0 <= i < |v| ==> v[i].tid <= tid
  }

  ghost predicate IsNewestHeight(v: seq<OrderUpdateHead>, height: nat) {
    (exists i :: 0 <= i < |v| && v[i].height == height) && forall i :: 0 <= i < |v| ==> v[i].height <= height
  }

  /** What a frame is ordered by, and under which mode: a block's time, its height, or the newest id or
      height of its batch. */
  lemma StampedAsDocumented(frame: Frame)
    requires Route(frame).Some?
    ensures var ord := Route(frame).value.1;
            match frame
            case BboFrame(_, time) => ord == Lead(time)
            case L2BookFrame(_, time, _, _, _) => ord == Sticky(time)
            case TradesFrame(v) => ord.Point? && IsNewestTid(v, ord.stamp)
            case OrderUpdatesFrame(v) => ord.Block? && IsNewestHeight(v, ord.stamp)
            case L4SnapshotFrame(_, height) => ord == Snapshot(height)
            case L4UpdatesFrame(height, _, _) => ord == Block(height)
            case L2DiffSnapshotFrame(head, _, _) => ord == Snapshot(head.height)
            case L2DiffUpdatesFrame(head, _, _) => ord == Sticky(head.height)
            case ErrorFrame(_) => false
  {
  }

  /** A batch of trades is ordered by the newest id it carries, however it was cut: the stamp is in
      the batch, bounds it, and does not depend on the order of its elements. */
  lemma TradesOrderByNewest(v: seq<TradeHead>, w: seq<TradeHead>)
    requires v != [] && multiset(v) == multiset(w)
    ensures w != []
    ensures Route(TradesFrame(v)).value.1 == Route(TradesFrame(w)).value.1 == Point(MaxTid(v))
  {
    assert v[0] in multiset(v);
    assert w != [];
    var i :| 0 <= i < |v| && v[i].tid == MaxTid(v);
    var j :| 0 <= j < |w| && w[j].tid == MaxTid(w);
    assert v[i] in multiset(w) && w[j] in multiset(v);
  }
}
