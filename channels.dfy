/**
 * The identity of one pairing session: the identifier the relay files its
 * messages under and the key they are encrypted with. Both are fixed once the
 * value exists.
 */
module Channels {
  import opened Bytes
  import Base58

  datatype Channel = Channel(id: string, key: seq<Byte>)

  /** A channel with the given identifier and key, stored unchanged. */
  function NewChannel(channelId: string, encryptionKey: seq<Byte>): (c: Channel)
    ensures c.id == channelId && c.key == encryptionKey
  {
    Channel(channelId, encryptionKey)
  }

  /**
   * A fresh channel from two independent 32-byte draws of the secure random
   * source: the key is the second draw itself, the identifier the base58
   * encoding of the first (so it can never hold the '=' that base64 pads with).
   */
  function NewChannelWithRandomKey(idEntropy: seq<Byte>, keyEntropy: seq<Byte>): (c: Channel)
    requires |idEntropy| == 32 && |keyEntropy| == 32
    ensures |c.key| == 32 && c.key == keyEntropy
    ensures '=' !in c.id
    ensures forall i :: 0 <= i < |c.id| ==> Base58.InAlphabet(c.id[i])
    ensures Base58.Decode(c.id) == idEntropy
  {
    Base58.DecodeEncode(idEntropy);
    NewChannel(Base58.Encode(idEntropy), keyEntropy)
  }
}
