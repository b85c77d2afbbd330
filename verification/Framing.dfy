/** The discriminator byte in front of every binary message, over any MessagePack codec. */
module Framing {
  import opened Protocol

  const PROTOCOL_BYTE: Byte := 0x69

  /** The codec of a library: what it packs it can unpack, and other bytes may be refused. */
  datatype Codec<!E> = Codec(pack: E -> Bytes, unpack: Bytes -> Option<E>)

  ghost predicate Faithful<E(!new)>(c: Codec<E>) { forall e :: c.unpack(c.pack(e)) == Some(e) }

  datatype Received<E> = Ok(env: E) | NoData | WrongByte(got: Byte) | BadEnvelope

  function Unmarshal<E>(c: Codec<E>, data: Bytes): Received<E> {
    if data == [] then NoData
    else if data[0] != PROTOCOL_BYTE then WrongByte(data[0])
    else match c.unpack(data[1..]) case Some(e) => Ok(e) case None => BadEnvelope
  }

  /** A fresh slice: the discriminator, then the packed bytes copied behind it. */
  method Marshal<E(!new)>(c: Codec<E>, env: E) returns (data: array<Byte>)
    ensures fresh(data) && data[..] == Framed(c, env) && data[0] == 0x69
    ensures Faithful(c) ==> Unmarshal(c, data[..]) == Ok(env)
  {
    var packed := c.pack(env);
    data := new Byte[1 + |packed|];
    data[0] := PROTOCOL_BYTE;
    var i := 0;
    while i < |packed|
      invariant 0 <= i <= |packed| && data[0] == PROTOCOL_BYTE
      invariant forall j :: 0 <= j < i ==> data[1 + j] == packed[j]
    {
      data[1 + i] := packed[i];
      i := i + 1;
    }
    assert data[..][1..] == packed;
  }

  function Framed<E>(c: Codec<E>, env: E): Bytes { [PROTOCOL_BYTE] + c.pack(env) }

  /** Exactly the messages with the discriminator and a readable envelope are accepted. */
  lemma AcceptedIff<E>(c: Codec<E>, data: Bytes)
    ensures Unmarshal(c, data).Ok? <==> data != [] && data[0] == 0x69 && c.unpack(data[1..]).Some?
    ensures Unmarshal(c, data).Ok? ==> c.unpack(data[1..]) == Some(Unmarshal(c, data).env)
  {}

  /** A message belongs to one envelope at most, and what Unmarshal refuses belongs to none. */
  lemma FramesAreUnambiguous<E(!new)>(c: Codec<E>, data: Bytes, env: E)
    requires Faithful(c) && data == Framed(c, env)
    ensures Unmarshal(c, data) == Ok(env)
    ensures forall other :: Framed(c, other) == data ==> other == env
  {
    assert data[1..] == c.pack(env);
    forall other | Framed(c, other) == data ensures other == env {
      assert Framed(c, other)[1..] == c.pack(other);
      assert c.unpack(c.pack(other)) == Some(other) && c.unpack(c.pack(env)) == Some(env);
    }
  }
}
