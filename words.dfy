/** The program image format: the file's bytes read as little-endian unsigned 16-bit words
    (Ruby's `unpack('v*')`), with a trailing odd byte dropped. */
module Words {

  type Byte = x: nat | x < 256

  /** Every word Unpack yields fits in 16 bits. */
  predicate IsWord(w: nat)
  {
    w < 65536
  }

  /** The words of a program image, two bytes each, low byte first. */
  function Unpack(bytes: seq<Byte>): (words: seq<nat>)
    ensures |words| == |bytes| / 2
    ensures forall i :: 0 <= i < |words| ==> words[i] == bytes[2 * i] as nat + 256 * bytes[2 * i + 1] as nat
    ensures forall i :: 0 <= i < |words| ==> IsWord(words[i])
    decreases |bytes|
  {
    if |bytes| < 2 then []
    else [bytes[0] as nat + 256 * bytes[1] as nat] + Unpack(bytes[2..])
  }

  /** The bytes of a sequence of 16-bit words, low byte first: the image format's writer. */
  function Pack(words: seq<nat>): (bytes: seq<Byte>)
    requires forall i :: 0 <= i < |words| ==> IsWord(words[i])
    ensures |bytes| == 2 * |words|
  {
    if words == [] then []
    else
      assert IsWord(words[0]);
      [(words[0] % 256) as Byte, (words[0] / 256) as Byte] + Pack(words[1..])
  }

  /** Reading back what Pack wrote gives the original words. */
  lemma {:induction false} UnpackPack(words: seq<nat>)
    requires forall i :: 0 <= i < |words| ==> IsWord(words[i])
    ensures Unpack(Pack(words)) == words
  {
    if words != [] {
      var bytes := Pack(words);
      assert bytes[2..] == Pack(words[1..]);
      UnpackPack(words[1..]);
    }
  }

  /** Writing the unpacked words again gives the image back, less a trailing odd byte. */
  lemma {:induction false} PackUnpack(bytes: seq<Byte>)
    ensures Pack(Unpack(bytes)) == bytes[..|bytes| - |bytes| % 2]
  {
    if |bytes| >= 2 {
      var w := bytes[0] as nat + 256 * bytes[1] as nat;
      assert w % 256 == bytes[0] && w / 256 == bytes[1];
      PackUnpack(bytes[2..]);
      assert Unpack(bytes)[1..] == Unpack(bytes[2..]);
      assert bytes[..|bytes| - |bytes| % 2] == [bytes[0], bytes[1]] + bytes[2..][..|bytes[2..]| - |bytes[2..]| % 2];
    }
  }

  /** A trailing odd byte contributes nothing. */
  lemma {:induction false} OddByteDropped(bytes: seq<Byte>, b: Byte)
    requires |bytes| % 2 == 0
    ensures Unpack(bytes + [b]) == Unpack(bytes)
  {
    if |bytes| >= 2 {
      assert (bytes + [b])[2..] == bytes[2..] + [b];
      OddByteDropped(bytes[2..], b);
    }
  }
}
