/** Stock types shared by every module of the model. */
module Common {
  datatype Option<+T> = None | Some(value: T)

  newtype Byte = x: int | 0 <= x < 256

  /** One Opus packet or one PCM buffer: bytes are never interpreted by the session layer. */
  type Bytes = seq<Byte>

  /** One Opus packet on its way to the device. */
  datatype Packet = Packet(bytes: Bytes)

  function Flatten<T>(xss: seq<seq<T>>): (r: seq<T>) {
    if xss == [] then [] else xss[0] + Flatten(xss[1..])
  }

  lemma Assoc<T>(a: seq<T>, b: seq<T>, c: seq<T>)
    ensures (a + b) + c == a + (b + c)
  {
  }

  /** The last element of the second sequence is that of both. */
  lemma Snoc<T>(xs: seq<T>, ys: seq<T>)
    requires |ys| > 0
    ensures xs + ys == (xs + ys[..|ys| - 1]) + [ys[|ys| - 1]]
  {
  }

  /** `xs` is a first part of `ys`. */
  ghost predicate Leads<T>(xs: seq<T>, ys: seq<T>) { xs <= ys }

  lemma LeadsLonger<T>(xs: seq<T>, ys: seq<T>)
    ensures Leads(xs, xs + ys)
  {
  }

  lemma LeadsTrans<T>(xs: seq<T>, ys: seq<T>, zs: seq<T>)
    requires Leads(xs, ys) && Leads(ys, zs)
    ensures Leads(xs, zs)
  {
  }

  lemma {:induction false} FlattenAppend<T>(xss: seq<seq<T>>, yss: seq<seq<T>>)
    ensures Flatten(xss + yss) == Flatten(xss) + Flatten(yss)
  {
    if |xss| == 0 {
      assert xss + yss == yss;
    } else {
      var rest := xss[1..] + yss;
      assert (xss + yss)[1..] == rest && (xss + yss)[0] == xss[0];
      assert Flatten(xss + yss) == xss[0] + Flatten(rest);
      FlattenAppend(xss[1..], yss);
      Assoc(xss[0], Flatten(xss[1..]), Flatten(yss));
    }
  }

  /** The last `n` elements, or all of them when there are fewer. */
  function LastN<T>(xs: seq<T>, n: nat): (r: seq<T>) {
    if |xs| <= n then xs else xs[|xs| - n..]
  }
}
