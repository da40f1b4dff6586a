/** The part of `BaseDevice` that the device models rely on: the cached shadow (the device's
    last reported state), `publish_single`, which sends one desired `(attribute, value)` pair,
    and `raise_invalid_value`, which is the failure `InvalidValue(allowed)`. */
module Device {
  import opened Wrappers

  /** A scalar from a shadow document or a command payload. */
  datatype Value = Str(s: string) | Num(x: real)

  /** The reported state: a key that is absent reads as `None`. */
  type Shadow = map<string, Value>

  /** One single-attribute desired-state command. */
  datatype Message = Message(attribute: string, value: Value)

  class BaseDevice {
    const name: string
    var shadow: Shadow
    /** Every command published through this device, oldest first. */
    var published: seq<Message>

    constructor (name: string, shadow: Shadow)
      ensures this.name == name && this.shadow == shadow && published == []
    {
      this.name := name;
      this.shadow := shadow;
      published := [];
    }

    /** `shadow.get(key)`. */
    function Get(key: string): (r: Option<Value>)
      reads this
      ensures r.Some? <==> key in shadow
      ensures r.Some? ==> r.value == shadow[key]
    {
      if key in shadow then Some(shadow[key]) else None
    }

    /** `publish_single(attribute, value)`: one more message on the log, the shadow untouched. */
    method PublishSingle(attribute: string, value: Value)
      modifies this`published
      ensures published == old(published) + [Message(attribute, value)]
    {
      published := published + [Message(attribute, value)];
    }
  }
}
