/** The expiring answer store: one Redis hash per key, each mapping
    question keys to raw answer texts. A hash with no fields does not exist
    in Redis, so reading a missing identity yields the empty map. The time
    to live is a separate setting, written only by `SetTtl`; its running out
    is the explicit operation `TtlElapsed`, not a clock. */
module AnswerStore {
  import opened Wrappers
  import opened Text

  /** `str(user_id)`: the Redis key of an identity. The identity is an
      integer, or None where a message carried no chat. */
  function KeyOf(id: Option<int>): (k: string)
  {
    match id
    case Some(i) => IntToString(i)
    case None => "None"
  }

  /** Distinct identities never share an answer set. */
  lemma KeyOfInjective(a: Option<int>, b: Option<int>)
    ensures KeyOf(a) == KeyOf(b) ==> a == b
  {
    if a.Some? {
      IntToStringRoundTrip(a.value);
    }
    if b.Some? {
      IntToStringRoundTrip(b.value);
    }
  }

  /** The hash stored under `id`, empty when there is none. */
  function AnswerSetOf(entries: map<string, map<string, string>>, id: string): (m: map<string, string>)
    ensures id in entries ==> m == entries[id]
    ensures id !in entries ==> m == map[]
  {
    if id in entries then entries[id] else map[]
  }

  /** The lifetime, in seconds, given to a fresh answer set: 30 minutes. */
  const AnswerSetTtl: int := 60 * 30

  class RedisStore {
    var entries: map<string, map<string, string>>
    /** The time to live set on an entry, in seconds. */
    var expiry: map<string, int>

    ghost predicate Valid()
      reads this
    {
      && (forall id :: id in entries ==> |entries[id]| > 0)
      && expiry.Keys <= entries.Keys
    }

    constructor ()
      ensures Valid() && entries == map[] && expiry == map[]
    {
      entries := map[];
      expiry := map[];
    }

    /** `HGETALL`: the identity's hash, empty when it has none. */
    function UserInput(id: string): (m: map<string, string>)
      reads this
      ensures Valid() ==> (|m| > 0 <==> id in entries)
    {
      AnswerSetOf(entries, id)
    }

    /** The hash exists, that is, it has at least one field. */
    predicate Exists(id: string)
      reads this
    {
      |UserInput(id)| > 0
    }

    /** `HSET` with a mapping: the given fields are added or overwritten,
        the rest of the hash, the other identities and every time to live
        stay as they were. */
    method HSet(id: string, fields: map<string, string>)
      requires Valid() && |fields| > 0
      modifies this
      ensures Valid()
      ensures entries == old(entries)[id := old(UserInput(id)) + fields]
      ensures expiry == old(expiry)
    {
      assert |UserInput(id) + fields| > 0 by {
        var k :| k in fields;
        assert k in (UserInput(id) + fields).Keys;
      }
      entries := entries[id := UserInput(id) + fields];
    }

    /** `EXPIRE`: sets the time to live of an existing hash; does nothing
        for a missing one. */
    method SetTtl(id: string, seconds: int)
      requires Valid()
      modifies this
      ensures Valid()
      ensures entries == old(entries)
      ensures expiry == if id in old(entries) then old(expiry)[id := seconds] else old(expiry)
    {
      if id in entries {
        expiry := expiry[id := seconds];
      }
    }

    /** `DEL`: the hash and its time to live are gone; other identities keep
        theirs. */
    method Delete(id: string)
      requires Valid()
      modifies this
      ensures Valid()
      ensures entries == old(entries) - {id}
      ensures expiry == old(expiry) - {id}
      ensures !Exists(id)
    {
      entries := entries - {id};
      expiry := expiry - {id};
    }

    /** The time to live of `id` ran out: Redis removes the hash. A hash with
        no time to live never lapses. */
    method TtlElapsed(id: string)
      requires Valid()
      modifies this
      ensures Valid()
      ensures entries == if id in old(expiry) then old(entries) - {id} else old(entries)
      ensures expiry == old(expiry) - {id}
    {
      if id in expiry {
        entries := entries - {id};
      }
      expiry := expiry - {id};
    }
  }
}
