/** Channel modes: the twelve flags, their words, the mode request and the labels of the browser's settings dialog. */
module Modes {
  datatype Flag =
    | ClientInvites
    | AgentOnly
    | InviteOnly
    | SaveHistory
    | Persist
    | WaitForAgent
    | RejoinClients
    | CanNotLeave
    | HiddenMemberList
    | HiddenMessages
    | Invisible
    | Secret

  /** A `ChannelOptions` value: the set of its flags. */
  type Options = set<Flag>

  type U64 = n: int | 0 <= n < 0x1_0000_0000_0000_0000

  /** The flags in declaration order. */
  function FlagAt(i: nat): Flag {
    if i == 0 then ClientInvites
    else if i == 1 then AgentOnly
    else if i == 2 then InviteOnly
    else if i == 3 then SaveHistory
    else if i == 4 then Persist
    else if i == 5 then WaitForAgent
    else if i == 6 then RejoinClients
    else if i == 7 then CanNotLeave
    else if i == 8 then HiddenMemberList
    else if i == 9 then HiddenMessages
    else if i == 10 then Invisible
    else Secret
  }

  function Available(): seq<Flag> {
    seq(12, i requires 0 <= i < 12 => FlagAt(i))
  }

  function PublicModes(): seq<Flag> {
    [InviteOnly, Secret]
  }

  const PUBLIC: Options := {InviteOnly, Secret}

  /** The flag is declared as `1 << Position`. */
  function Position(f: Flag): (i: nat)
    ensures i < 12 && FlagAt(i) == f
  {
    match f
    case ClientInvites => 0
    case AgentOnly => 1
    case InviteOnly => 2
    case SaveHistory => 3
    case Persist => 4
    case WaitForAgent => 5
    case RejoinClients => 6
    case CanNotLeave => 7
    case HiddenMemberList => 8
    case HiddenMessages => 9
    case Invisible => 10
    case Secret => 11
  }

  function Pow2(n: nat): (r: int)
    ensures r > 0
  {
    if n == 0 then 1 else 2 * Pow2(n - 1)
  }

  predicate BitAt(word: nat, i: nat) {
    if i == 0 then word % 2 == 1 else BitAt(word / 2, i - 1)
  }

  /** `word & flag == flag`, for a flag of one bit. */
  predicate Marked(word: nat, f: Flag) {
    BitAt(word, Position(f))
  }

  function FlagsOf(word: nat): Options {
    set f: Flag | Marked(word, f)
  }

  /** The flags as bits, lowest first. */
  function Bits(options: Options): (bits: seq<bool>)
    ensures |bits| == 12
  {
    seq(12, i requires 0 <= i < 12 => FlagAt(i) in options)
  }

  function Value(bits: seq<bool>): (word: nat)
    ensures word < Pow2(|bits|)
  {
    if bits == [] then 0 else (if bits[0] then 1 else 0) + 2 * Value(bits[1..])
  }

  /** `options as u64`. */
  function WordOf(options: Options): (word: U64) {
    assert Pow2(12) == 4096;
    Value(Bits(options))
  }

  /** The low n bits of a word. */
  ghost function Low(word: nat, n: nat): nat {
    if n == 0 then 0 else word % 2 + 2 * Low(word / 2, n - 1)
  }

  lemma Halving(word: nat, p: int)
    requires p > 0
    ensures word % (2 * p) == word % 2 + 2 * (word / 2 % p)
  {
    var q, r := word / 2 / p, word / 2 % p;
    assert word == (2 * p) * q + (word % 2 + 2 * r);
    Remainder(word, 2 * p, q, word % 2 + 2 * r);
  }

  lemma Remainder(a: int, d: int, q: int, r: int)
    requires d > 0 && 0 <= r < d && a == d * q + r
    ensures a % d == r
  {
    var k := a / d - q;
    assert a == d * (a / d) + a % d;
    assert d * k == r - a % d;
    Multiple(d, k);
  }

  lemma Multiple(d: int, k: int)
    requires d > 0
    ensures k >= 1 ==> d * k >= d
    ensures k <= -1 ==> d * k <= -d
  {
  }

  lemma {:induction false} LowIsRemainder(word: nat, n: nat)
    ensures Low(word, n) == word % Pow2(n)
  {
    if n > 0 {
      LowIsRemainder(word / 2, n - 1);
      Halving(word, Pow2(n - 1));
    }
  }

  lemma {:induction false} LowGrows(word: nat, n: nat)
    ensures Low(word, n + 1) == Low(word, n) + (if BitAt(word, n) then Pow2(n) else 0)
  {
    if n > 0 {
      LowGrows(word / 2, n - 1);
    }
  }

  lemma {:induction false} ValueMarks(bits: seq<bool>, j: nat)
    requires j < |bits|
    ensures BitAt(Value(bits), j) <==> bits[j]
  {
    assert Value(bits) / 2 == Value(bits[1..]);
    if j > 0 {
      ValueMarks(bits[1..], j - 1);
    }
  }

  lemma {:induction false} ValueKeepsLow(bits: seq<bool>, word: nat)
    requires forall j :: 0 <= j < |bits| ==> (bits[j] <==> BitAt(word, j))
    ensures Value(bits) == Low(word, |bits|)
  {
    if bits != [] {
      forall j | 0 <= j < |bits| - 1 ensures bits[1..][j] <==> BitAt(word / 2, j) {
        assert bits[j + 1] <==> BitAt(word, j + 1);
      }
      assert bits[0] <==> BitAt(word, 0);
      ValueKeepsLow(bits[1..], word / 2);
    }
  }

  lemma {:induction false} ValueGrows(bits: seq<bool>, j: nat)
    requires j < |bits| && !bits[j]
    ensures Value(bits[j := true]) == Value(bits) + Pow2(j)
  {
    if j == 0 {
      assert bits[0 := true][1..] == bits[1..];
    } else {
      ValueGrows(bits[1..], j - 1);
      assert bits[j := true][1..] == bits[1..][j - 1 := true];
    }
  }

  lemma PositionOf(i: nat)
    requires i < 12
    ensures Position(FlagAt(i)) == i
  {
  }

  lemma WordMarks(options: Options, f: Flag)
    ensures Marked(WordOf(options), f) <==> f in options
  {
    ValueMarks(Bits(options), Position(f));
  }

  /** Decoding inverts encoding, and encoding what was decoded keeps exactly the twelve low bits. */
  lemma WordRoundTrip(options: Options, word: nat)
    ensures FlagsOf(WordOf(options)) == options
    ensures WordOf(FlagsOf(word)) == word % 4096
  {
    forall f: Flag ensures Marked(WordOf(options), f) <==> f in options {
      WordMarks(options, f);
    }
    var bits := Bits(FlagsOf(word));
    forall j | 0 <= j < 12 ensures bits[j] <==> BitAt(word, j) {
      PositionOf(j);
    }
    ValueKeepsLow(bits, word);
    LowIsRemainder(word, 12);
    assert Pow2(12) == 4096;
  }

  /** The mode handler's accumulation: the flags are summed rather than or-ed, and the sum is the masked request. */
  method AccumulateModes(modes: U64) returns (sum: U64)
    ensures sum == modes % 4096
    ensures FlagsOf(sum) == FlagsOf(modes)
  {
    var total: nat := 0;
    for i := 0 to |Available()|
      invariant total == Low(modes, i)
    {
      var option := Available()[i];
      PositionOf(i);
      LowGrows(modes, i);
      if Marked(modes, option) {
        total := total + Pow2(Position(option));
      }
    }
    LowIsRemainder(modes, 12);
    assert Pow2(12) == 4096;
    sum := total;
    WordRoundTrip(FlagsOf(modes), modes);
  }

  /** `get_options_from_u64`: or-ing the marked flags decodes the word, so it is the identity on a masked request. */
  method OptionsFromWord(modes: U64) returns (options: Options)
    ensures options == FlagsOf(modes)
    ensures WordOf(options) == modes % 4096
  {
    options := {};
    for i := 0 to |Available()|
      invariant forall f: Flag :: f in options <==> Position(f) < i && Marked(modes, f)
    {
      var option := Available()[i];
      PositionOf(i);
      if Marked(modes, option) {
        options := options + {option};
      }
    }
    WordRoundTrip(options, modes);
  }

  /** `ChannelOptions::xor`. */
  function Xor(a: Options, b: Options): Options {
    (a - b) + (b - a)
  }

  /** An owner's request changes the public modes only. */
  function Merge(before: Options, requested: Options): Options {
    (before - PUBLIC) + (requested * PUBLIC)
  }

  /** Any number of owner requests, oldest first. */
  function MergeAll(before: Options, requests: seq<Options>): Options {
    if requests == [] then before
    else Merge(MergeAll(before, requests[..|requests| - 1]), requests[|requests| - 1])
  }

  /** However often the owner saves, the private modes survive and the last request alone decides the public ones. */
  lemma {:induction false} OwnerKeepsPrivateModes(before: Options, requests: seq<Options>)
    ensures MergeAll(before, requests) - PUBLIC == before - PUBLIC
    ensures requests != [] ==> MergeAll(before, requests) == Merge(before, requests[|requests| - 1])
  {
    if requests != [] {
      OwnerKeepsPrivateModes(before, requests[..|requests| - 1]);
    }
  }

  // Labels and the settings dialog

  function Label(flag: Flag): string {
    match flag
    case ClientInvites => "Allow Invites"
    case AgentOnly => "Agent Only"
    case InviteOnly => "Invite Only"
    case SaveHistory => "Save History"
    case Persist => "Persist Empty"
    case WaitForAgent => "Wait for Agent"
    case RejoinClients => "Rejoin on Disconnect"
    case CanNotLeave => "May Not Leave"
    case HiddenMemberList => "Hidden Members"
    case HiddenMessages => "Hidden Messages"
    case Invisible => "Invisible"
    case Secret => "Not Listed"
  }

  function LabelsFrom(options: Options, i: nat): seq<string>
    requires i <= 12
    decreases 12 - i
  {
    if i == 12 then []
    else (if FlagAt(i) in options then [Label(FlagAt(i))] else []) + LabelsFrom(options, i + 1)
  }

  /** `options_vec_string`: the labels sent to browsers. */
  function Labels(options: Options): seq<string> {
    LabelsFrom(options, 0)
  }

  lemma LabelsDiffer(a: Flag, b: Flag)
    requires Label(a) == Label(b)
    ensures a == b
  {
    assert |Label(a)| == |Label(b)| && Label(a)[0] == Label(b)[0];
  }

  lemma {:induction false} LabelListed(options: Options, i: nat, f: Flag)
    requires i <= 12
    ensures Label(f) in LabelsFrom(options, i) <==> f in options && Position(f) >= i
    decreases 12 - i
  {
    hide Label, FlagAt, Position;
    if i < 12 {
      var g := FlagAt(i);
      LabelListed(options, i + 1, f);
      PositionOf(i);
      assert FlagAt(Position(f)) == f;
      if Label(f) == Label(g) {
        LabelsDiffer(f, g);
      }
    }
  }

  /** The browser's `modes |= flag`. */
  function OrFlag(word: nat, f: Flag): nat {
    if Marked(word, f) then word else word + Pow2(Position(f))
  }

  lemma WordGrows(options: Options, f: Flag)
    requires f !in options
    ensures WordOf(options + {f}) == WordOf(options) + Pow2(Position(f))
  {
    var bits, more, p := Bits(options), Bits(options + {f}), Position(f);
    forall i | 0 <= i < 12 ensures more[i] == bits[p := true][i] {
      PositionOf(i);
    }
    assert more == bits[p := true];
    ValueGrows(bits, p);
  }

  /** The browser saves its boxes in this order; it differs from the declaration order in one place. */
  function SavedAt(f: Flag): (k: nat)
    ensures k < 12
  {
    if f == RejoinClients then 5 else if f == WaitForAgent then 6 else Position(f)
  }

  ghost function SavedBefore(k: nat): Options {
    set f: Flag | SavedAt(f) < k
  }

  lemma SavedNext(f: Flag)
    ensures SavedBefore(SavedAt(f) + 1) == SavedBefore(SavedAt(f)) + {f}
  {
    forall g: Flag | SavedAt(g) == SavedAt(f) ensures g == f {
      assert FlagAt(Position(g)) == g && FlagAt(Position(f)) == f;
    }
  }

  /** One `if checked, modes |= flag` of the browser. */
  method Tick(modes: nat, boxes: Options, f: Flag) returns (r: nat)
    requires modes == WordOf(boxes * SavedBefore(SavedAt(f)))
    ensures r == WordOf(boxes * SavedBefore(SavedAt(f) + 1))
  {
    r := modes;
    ghost var done := SavedBefore(SavedAt(f));
    SavedNext(f);
    if f in boxes {
      WordMarks(boxes * done, f);
      WordGrows(boxes * done, f);
      assert boxes * (done + {f}) == boxes * done + {f};
      r := OrFlag(modes, f);
    } else {
      assert boxes * done == boxes * (done + {f});
    }
  }

  lemma NoFlags()
    ensures WordOf({}) == 0
  {
    NoBits(12);
    ValueKeepsLow(Bits({}), 0);
  }

  lemma {:induction false} NoBits(n: nat)
    ensures Low(0, n) == 0 && forall j :: 0 <= j < n ==> !BitAt(0, j)
  {
    if n > 0 {
      NoBits(n - 1);
      forall j | 0 <= j < n ensures !BitAt(0, j) {
      }
    }
  }

  /** The page's own list of labels, one for each box of its settings dialog. */
  function BoxLabel(box: Flag): string {
    match box
    case ClientInvites => "Allow Invites"
    case AgentOnly => "Agent Only"
    case InviteOnly => "Invite Only"
    case SaveHistory => "Save History"
    case Persist => "Persist Empty"
    case RejoinClients => "Rejoin on Disconnect"
    case WaitForAgent => "Wait for Agent"
    case CanNotLeave => "May Not Leave"
    case HiddenMemberList => "Hidden Members"
    case HiddenMessages => "Hidden Messages"
    case Invisible => "Invisible"
    case Secret => "Not Listed"
  }

  /** Opening the settings dialog ticks the box of each label the server sent. */
  function OpenDialog(labels: seq<string>): Options {
    set f: Flag | BoxLabel(f) in labels
  }

  /** The boxes show exactly the channel's modes. */
  lemma DialogShowsModes(options: Options)
    ensures OpenDialog(Labels(options)) == options
  {
    forall f: Flag ensures BoxLabel(f) in Labels(options) <==> f in options {
      assert BoxLabel(f) == Label(f);
      LabelListed(options, 0, f);
    }
    hide Labels, BoxLabel;
  }

  lemma SavedEnds(boxes: Options)
    ensures WordOf(boxes * SavedBefore(0)) == 0
    ensures boxes * SavedBefore(12) == boxes
  {
    NoFlags();
    assert boxes * SavedBefore(0) == {};
  }

  /** Saving re-encodes the boxes, in the browser's own order; reopening and saving gives the same modes back. */
  method SaveDialog(boxes: Options) returns (modes: U64)
    ensures modes == WordOf(boxes)
    ensures FlagsOf(modes) == boxes
  {
    hide WordOf, SavedBefore, FlagsOf, Marked, FlagAt;
    SavedEnds(boxes);
    var word := Tick(0, boxes, ClientInvites);
    word := Tick(word, boxes, AgentOnly);
    word := Tick(word, boxes, InviteOnly);
    word := Tick(word, boxes, SaveHistory);
    word := Tick(word, boxes, Persist);
    word := Tick(word, boxes, RejoinClients);
    word := Tick(word, boxes, WaitForAgent);
    word := Tick(word, boxes, CanNotLeave);
    word := Tick(word, boxes, HiddenMemberList);
    word := Tick(word, boxes, HiddenMessages);
    word := Tick(word, boxes, Invisible);
    word := Tick(word, boxes, Secret);
    modes := word;
    WordRoundTrip(boxes, modes);
  }
}
