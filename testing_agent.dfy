/**
 * The agent test doubles: an in-memory persist store of sets keyed by name,
 * and a message queue that records each emitted message under the selector of
 * the key it was sent with.
 */
module TestingAgent {
  import Text

  type Storage = map<string, set<string>>

  /** `_set_is_member`: the key is stored and its set holds the value. */
  function IsMember(storage: Storage, key: string, value: string): bool
  {
    key in storage && value in storage[key]
  }

  /** The storage after `storage.setdefault(key, set()).add(value)`. */
  function Added(storage: Storage, key: string, value: string): Storage
  {
    storage[key := (if key in storage then storage[key] else {}) + {value}]
  }

  /** After an add, membership holds exactly for the added pair and for what was there before. */
  lemma AddedMembers(storage: Storage, key: string, value: string, k: string, v: string)
    ensures IsMember(Added(storage, key, value), k, v) <==> (k == key && v == value) || IsMember(storage, k, v)
  {
  }

  /** An add creates the key's set when absent and leaves every other key as it was. */
  lemma AddedFrame(storage: Storage, key: string, value: string)
    ensures Added(storage, key, value).Keys == storage.Keys + {key}
    ensures key !in storage ==> Added(storage, key, value)[key] == {value}
    ensures forall k :: k in storage && k != key ==> Added(storage, key, value)[k] == storage[k]
  {
  }

  /** Adding a value already present changes nothing, so adding twice is adding once. */
  lemma AddedPresent(storage: Storage, key: string, value: string)
    ensures IsMember(storage, key, value) ==> Added(storage, key, value) == storage
    ensures Added(Added(storage, key, value), key, value) == Added(storage, key, value)
  {
    if IsMember(storage, key, value) {
      assert storage[key] + {value} == storage[key];
    }
    var once := Added(storage, key, value);
    assert once[key] + {value} == once[key];
  }

  /** The persist store patched over the agent's `set_add` and `set_is_member`. */
  class PersistMock {
    var storage: Storage

    constructor ()
      ensures storage == map[]
    {
      storage := map[];
    }

    method SetIsMember(key: string, value: string) returns (r: bool)
      ensures r == IsMember(storage, key, value)
    {
      if key in storage && value in storage[key] {
        return true;
      } else {
        return false;
      }
    }

    /** Adds the value and answers True, or answers False when it was already a member. */
    method SetAdd(key: string, value: string) returns (added: bool)
      modifies this
      ensures added <==> !IsMember(old(storage), key, value)
      ensures storage == Added(old(storage), key, value)
      ensures IsMember(storage, key, value)
    {
      var present := SetIsMember(key, value);
      if present {
        AddedPresent(storage, key, value);
        return false;
      }
      if key !in storage {
        storage := storage[key := {}];
      }
      storage := storage[key := storage[key] + {value}];
      return true;
    }
  }

  /** An emitted message: the selector it was sent to and its serialized body. */
  datatype Message = Message(selector: string, raw: seq<bv8>)

  /** `'.'.join(key.split('.')[:-1])`: the key without its last dot-separated component. */
  function Selector(key: string): (selector: string)
    ensures '.' in key ==> selector + "." + Text.AfterLast(key, '.') == key && '.' !in Text.AfterLast(key, '.')
    ensures '.' !in key ==> selector == ""
  {
    Text.SplitLast(key, '.');
    Text.BeforeLast(key, '.')
  }

  /** The sending side appends `.<uuid>` to the selector; the mock recovers the selector. */
  lemma SelectorStripsSuffix(selector: string, id: string)
    requires '.' !in id
    ensures Selector(selector + "." + id) == selector
  {
    var key := selector + "." + id;
    var front := Text.Split(selector, '.');
    var parts := front + [id];
    assert parts[..|parts| - 1] == front;
    Text.JoinSnoc(parts, '.');
    assert Text.Join(parts, '.') == key;
    Text.SplitJoin(parts, '.');
  }

  /** The message queue patched over the agent's `mq_send_message`. */
  class MqMock {
    var emitted: seq<Message>

    constructor ()
      ensures emitted == []
    {
      emitted := [];
    }

    /** Records the message under the selector of its key, after all earlier ones. */
    method MqSendMessage(key: string, message: seq<bv8>)
      modifies this
      ensures emitted == old(emitted) + [Message(Selector(key), message)]
    {
      var parts := Text.Split(key, '.');
      var selector := Text.Join(parts[..|parts| - 1], '.');
      emitted := emitted + [Message(selector, message)];
    }
  }
}
