/**
 * The control sources of src/controls.ts. Every source exposes four driving
 * flags; the fixed sources never change them, the keyboard source flips one
 * flag per key event, and the neural source overwrites all four from a
 * forward pass of its network.
 */
module Controls {
  import opened Network

  /** The four flags a car reads on every tick. */
  datatype Flags = Flags(forward: bool, reverse: bool, left: bool, right: bool)

  /** `StaticControl`: a car that never drives itself. */
  function StaticControl(): (f: Flags)
    ensures !f.forward && !f.reverse && !f.left && !f.right
  {
    Flags(false, false, false, false)
  }

  /** `AlwaysForwardControls`: the traffic cars, which only accelerate. */
  function AlwaysForwardControls(): (f: Flags)
    ensures f.forward && !f.reverse && !f.left && !f.right
  {
    Flags(true, false, false, false)
  }

  /**
   * The `Control` a car holds: one of the fixed sources, whose flags never
   * change, or a neural control object, whose flags its `update` overwrites.
   */
  datatype Control = Fixed(flags: Flags) | Neural(nn: NNControl)
  {
    /** The object the flags live in, if any. */
    function Objects(): set<object>
    {
      if Neural? then {nn} else {}
    }

    /** The flags the car reads right now. */
    function Current(): Flags
      reads Objects()
    {
      if Fixed? then flags else nn.Current()
    }
  }

  // ---------------------------------------------------------------------------
  // Keyboard: the key to flag table of the two listeners
  // ---------------------------------------------------------------------------

  /** What the listeners' `switch (event.key)` tells apart. */
  datatype Key = ArrowLeft | ArrowRight | ArrowUp | ArrowDown | Other

  /** The case of the switch a key name falls into; `default` for every other name. */
  function KeyOf(name: string): (k: Key)
    ensures k == ArrowLeft <==> name == "ArrowLeft"
    ensures k == ArrowRight <==> name == "ArrowRight"
    ensures k == ArrowUp <==> name == "ArrowUp"
    ensures k == ArrowDown <==> name == "ArrowDown"
  {
    match name
    case "ArrowLeft" => ArrowLeft
    case "ArrowRight" => ArrowRight
    case "ArrowUp" => ArrowUp
    case "ArrowDown" => ArrowDown
    case _ => Other
  }

  /** The flag an arrow key drives, given the value it is set to. */
  function SetFlag(f: Flags, k: Key, value: bool): Flags
  {
    match k
    case ArrowLeft => f.(left := value)
    case ArrowRight => f.(right := value)
    case ArrowUp => f.(forward := value)
    case ArrowDown => f.(reverse := value)
    case Other => f
  }

  /** `onkeydown`: an arrow key raises its own flag; any other key is ignored. */
  function KeyDown(f: Flags, name: string): (r: Flags)
    ensures KeyOf(name) == Other ==> r == f
    ensures KeyOf(name) != Other ==> FlagOf(r, KeyOf(name))
  {
    SetFlag(f, KeyOf(name), true)
  }

  /** `onkeyup`: an arrow key lowers its own flag; any other key is ignored. */
  function KeyUp(f: Flags, name: string): (r: Flags)
    ensures KeyOf(name) == Other ==> r == f
    ensures KeyOf(name) != Other ==> !FlagOf(r, KeyOf(name))
  {
    SetFlag(f, KeyOf(name), false)
  }

  /** The value of the flag an arrow key drives. */
  function FlagOf(f: Flags, k: Key): bool
    requires k != Other
  {
    match k
    case ArrowLeft => f.left
    case ArrowRight => f.right
    case ArrowUp => f.forward
    case ArrowDown => f.reverse
  }

  /** Two sets of flags agree on every flag except the one `k` drives. */
  predicate AgreeExcept(f: Flags, g: Flags, k: Key)
  {
    && (k != ArrowLeft ==> f.left == g.left)
    && (k != ArrowRight ==> f.right == g.right)
    && (k != ArrowUp ==> f.forward == g.forward)
    && (k != ArrowDown ==> f.reverse == g.reverse)
  }

  /**
   * Key-down of an arrow key sets exactly its own flag to true, key-up sets
   * exactly its own flag to false, and every other key changes nothing.
   */
  lemma KeyEventsTouchOneFlag(f: Flags, name: string)
    ensures var k := KeyOf(name);
      k != Other ==> FlagOf(KeyDown(f, name), k) && AgreeExcept(KeyDown(f, name), f, k)
    ensures var k := KeyOf(name);
      k != Other ==> !FlagOf(KeyUp(f, name), k) && AgreeExcept(KeyUp(f, name), f, k)
    ensures KeyOf(name) == Other ==> KeyDown(f, name) == f && KeyUp(f, name) == f
  {
  }

  /** Releasing a key undoes pressing it, whenever its flag was down before. */
  lemma KeyUpUndoesKeyDown(f: Flags, name: string)
    requires KeyOf(name) != Other ==> !FlagOf(f, KeyOf(name))
    ensures KeyUp(KeyDown(f, name), name) == f
  {
  }

  /** Repeating a key event changes nothing more. */
  lemma KeyEventsIdempotent(f: Flags, name: string)
    ensures KeyDown(KeyDown(f, name), name) == KeyDown(f, name)
    ensures KeyUp(KeyUp(f, name), name) == KeyUp(f, name)
  {
  }

  /** Events of two different keys commute: the table keeps the keys independent. */
  lemma KeyEventsCommute(f: Flags, a: string, b: string)
    requires KeyOf(a) != KeyOf(b)
    ensures KeyDown(KeyUp(f, a), b) == KeyUp(KeyDown(f, b), a)
    ensures KeyDown(KeyDown(f, a), b) == KeyDown(KeyDown(f, b), a)
    ensures KeyUp(KeyUp(f, a), b) == KeyUp(KeyUp(f, b), a)
  {
  }

  /**
   * `KeyControls`: the keyboard source. The two listeners its constructor
   * installs are the methods below; each runs once per key event.
   */
  class KeyControls {
    var forward: bool
    var left: bool
    var right: bool
    var reverse: bool

    function Current(): Flags
      reads this
    {
      Flags(forward, reverse, left, right)
    }

    /** `new KeyControls()`: all four flags start false. */
    constructor ()
      ensures Current() == StaticControl()
    {
      forward := false;
      left := false;
      right := false;
      reverse := false;
    }

    /** `document.onkeydown`: the switch of lines 32-49. */
    method OnKeyDown(name: string)
      modifies this
      ensures Current() == KeyDown(old(Current()), name)
    {
      match KeyOf(name)
      case ArrowLeft => left := true;
      case ArrowRight => right := true;
      case ArrowUp => forward := true;
      case ArrowDown => reverse := true;
      case Other =>
    }

    /** `document.onkeyup`: the switch of lines 51-68. */
    method OnKeyUp(name: string)
      modifies this
      ensures Current() == KeyUp(old(Current()), name)
    {
      match KeyOf(name)
      case ArrowLeft => left := false;
      case ArrowRight => right := false;
      case ArrowUp => forward := false;
      case ArrowDown => reverse := false;
      case Other =>
    }
  }

  // ---------------------------------------------------------------------------
  // The neural control
  // ---------------------------------------------------------------------------

  /**
   * `outputs[k] > 0` in the source: an output past the end of the array is
   * `undefined`, and `undefined > 0` is false.
   */
  predicate Positive(out: seq<real>, k: nat)
  {
    k < |out| && out[k] > 0.0
  }

  /** The flags NNControl.update derives from the network outputs, by position. */
  function NeuralFlags(out: seq<real>): (r: Flags)
    ensures (forall k :: 0 <= k < |out| ==> out[k] <= 0.0) ==> r == StaticControl()
  {
    Flags(
      forward := Positive(out, 0),
      reverse := Positive(out, 3),
      left := Positive(out, 1),
      right := Positive(out, 2))
  }

  /**
   * On the 0/1 outputs of a forward pass with four outputs, output 0 drives
   * forward, 1 left, 2 right and 3 reverse: a flag is set exactly when its
   * output fired.
   */
  lemma NeuralFlagsByPosition(out: seq<real>)
    requires |out| == 4
    requires forall i :: 0 <= i < |out| ==> out[i] == 0.0 || out[i] == 1.0
    ensures NeuralFlags(out) == Flags(out[0] == 1.0, out[3] == 1.0, out[1] == 1.0, out[2] == 1.0)
  {
  }

  /** A flag whose output is missing from a short output vector stays false. */
  lemma NeuralFlagsOfShortOutput(out: seq<real>)
    ensures |out| <= 0 ==> !NeuralFlags(out).forward
    ensures |out| <= 1 ==> !NeuralFlags(out).left
    ensures |out| <= 2 ==> !NeuralFlags(out).right
    ensures |out| <= 3 ==> !NeuralFlags(out).reverse
  {
  }

  /** A control driven by a network; `update` overwrites the flags from its outputs. */
  class NNControl {
    const ai: NNetwork
    var forward: bool
    var left: bool
    var right: bool
    var reverse: bool

    function Current(): Flags
      reads this
    {
      Flags(forward, reverse, left, right)
    }

    /** `new NNControl(ai)`: the network is kept, and all four flags start false. */
    constructor (ai: NNetwork)
      ensures this.ai == ai
      ensures Current() == StaticControl()
    {
      this.ai := ai;
      forward := false;
      left := false;
      right := false;
      reverse := false;
    }

    /**
     * `update(offsets)`: one forward pass on the offsets, then each flag is
     * whether its output is positive. The pass writes only the levels' inputs
     * and outputs, so the weights and biases stay as they were.
     */
    method Update(offsets: seq<real>)
      requires ai.Valid() && |ai.levels| >= 1 && |offsets| >= ai.levels[0].inputs.Length
      modifies this, ai.Signals
      ensures Current() == NeuralFlags(NetOutputs(old(ai.Params()), offsets))
      ensures ai.Params() == old(ai.Params())
    {
      ghost var ps := ai.Params();
      var outputs := ai.FeedForward(offsets);
      assert outputs[..] == NetOutputs(ps, offsets);
      ReadOutputs(outputs);
    }

    /** Lines 102-105 of `update`: each flag reads its own output. */
    method ReadOutputs(outputs: array<real>)
      modifies this
      ensures Current() == NeuralFlags(outputs[..])
    {
      forward := outputs.Length > 0 && outputs[0] > 0.0;
      left := outputs.Length > 1 && outputs[1] > 0.0;
      right := outputs.Length > 2 && outputs[2] > 0.0;
      reverse := outputs.Length > 3 && outputs[3] > 0.0;
    }
  }
}
