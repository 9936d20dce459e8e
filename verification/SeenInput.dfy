/** The seen sets as the program keeps them, and the loops that fill them. */
module SeenInput {
  import opened Seen

  /** The ordered set: its order for saving, its members for lookup. Two of them
      make up what a session has seen. */
  class SeenSets {
    const hash: Hash
    var ids: seq<string>
    var hasId: set<string>
    var hashes: seq<string>
    var hasHash: set<string>

    ghost predicate Valid()
      reads this
    {
      && Seen.Valid(View())
      && (forall v :: v in hasId <==> v in ids)
      && (forall v :: v in hasHash <==> v in hashes)
    }

    ghost function View(): State
      reads this
    {
      State(ids, hashes)
    }

    constructor (hash: Hash, savedIds: seq<string>, savedHashes: seq<string>)
      ensures Valid() && this.hash == hash && View() == Load(savedIds, savedHashes)
    {
      this.hash := hash;
      ids, hasId, hashes, hasHash := [], {}, [], {};
      new;
      LoadIds(savedIds);
      LoadHashes(savedHashes);
    }

    method LoadIds(saved: seq<string>)
      requires Valid() && ids == []
      modifies `ids, `hasId
      ensures Valid() && ids == AddAll([], saved)
    {
      for k := 0 to |saved|
        invariant Valid() && ids == AddAll([], saved[..k])
      {
        AddId(saved[k]);
        assert saved[..k + 1][..k] == saved[..k];
      }
      assert saved[..|saved|] == saved;
    }

    method LoadHashes(saved: seq<string>)
      requires Valid() && hashes == []
      modifies `hashes, `hasHash
      ensures Valid() && hashes == AddAll([], saved)
    {
      for k := 0 to |saved|
        invariant Valid() && hashes == AddAll([], saved[..k])
      {
        AddHash(saved[k]);
        assert saved[..k + 1][..k] == saved[..k];
      }
      assert saved[..|saved|] == saved;
    }

    method AddId(v: string)
      requires Valid()
      modifies `ids, `hasId
      ensures Valid() && ids == AddOnce(old(ids), v)
    {
      if v !in hasId {
        hasId := hasId + {v};
        ids := ids + [v];
      }
    }

    method AddHash(v: string)
      requires Valid()
      modifies `hashes, `hasHash
      ensures Valid() && hashes == AddOnce(old(hashes), v)
    {
      if v !in hasHash {
        hasHash := hasHash + {v};
        hashes := hashes + [v];
      }
    }

    method Add(id: string, h: string)
      requires Valid()
      modifies this
      ensures Valid() && View() == Record(old(View()), id, h)
    {
      if id != "" {
        AddId(id);
      }
      AddHash(h);
    }

    /** Splits a request into what is new for Claude and its tool outputs. */
    method NewInput(items: seq<Item>, strict: bool) returns (messages: seq<Item>, outputs: seq<Item>)
      requires Valid()
      modifies this
      ensures Valid() && View() == SeenAfter(hash, items, |items|, old(View()))
      ensures PlacesBelow(Passing(hash, items, |items|, old(View()), strict), |items|)
      ensures messages == At(items, Passing(hash, items, |items|, old(View()), strict))
      ensures PlacesBelow(Outputs(items, |items|), |items|)
      ensures outputs == At(items, Outputs(items, |items|))
    {
      if |ids| == 0 && |hashes| == 0 {
        messages, outputs := History(items, strict);
        return;
      }
      ghost var before := View();
      var lastUser := LastUser(items);
      messages, outputs := [], [];
      for i := 0 to |items|
        invariant Valid() && View() == SeenAfter(hash, items, i, before)
        invariant PlacesBelow(Passing(hash, items, i, before, strict), |items|)
        invariant PlacesBelow(Outputs(items, i), |items|)
        invariant messages == At(items, Passing(hash, items, i, before, strict))
        invariant outputs == At(items, Outputs(items, i))
      {
        AtMore(items, Passing(hash, items, i, before, strict), i);
        AtMore(items, Outputs(items, i), i);
        var it := items[i];
        if it.IsToolOutput() {
          outputs := outputs + [it];
          continue;
        }
        if !it.IsMessage() {
          continue;
        }
        var pass := Admit(it, i == lastUser, strict);
        if pass {
          messages := messages + [it];
        }
      }
    }

    /** Records one message and decides whether it passes. */
    method Admit(it: Item, newest: bool, strict: bool) returns (pass: bool)
      requires Valid() && it.IsMessage()
      modifies this
      ensures Valid() && View() == RecordItem(hash, old(View()), it)
      ensures pass <==>
              && !(it.id != "" && it.id in old(ids))
              && it.Author() != "assistant"
              && !(HashOf(hash, it) in old(hashes) && (strict || !(it.id != "" && (newest || it.kind == AgentMessage))))
              && !it.IsCompactionText()
    {
      var h := HashOf(hash, it);
      var idSeen := it.id != "" && it.id in hasId;
      var hashSeen := h in hasHash;
      Add(it.id, h);
      if idSeen || it.Author() == "assistant" {
        return false;
      }
      var repeatable := it.id != "" && (newest || it.kind == AgentMessage);
      if hashSeen && (strict || !repeatable) {
        return false;
      }
      return !(COMPACTION_SUMMARY <= it.text || COMPACTION_PROMPT <= it.text);
    }

    /** The whole thread, for a Claude that has seen none of it. */
    method History(items: seq<Item>, ghost strict: bool) returns (messages: seq<Item>, outputs: seq<Item>)
      requires Valid() && IsEmpty(View())
      modifies this
      ensures Valid() && View() == SeenAfter(hash, items, |items|, old(View()))
      ensures PlacesBelow(Passing(hash, items, |items|, old(View()), strict), |items|)
      ensures messages == At(items, Passing(hash, items, |items|, old(View()), strict))
      ensures PlacesBelow(Outputs(items, |items|), |items|)
      ensures outputs == At(items, Outputs(items, |items|))
    {
      ghost var before := View();
      messages, outputs := [], [];
      for i := 0 to |items|
        invariant Valid() && View() == SeenAfter(hash, items, i, before)
        invariant PlacesBelow(Passing(hash, items, i, before, strict), |items|)
        invariant PlacesBelow(Outputs(items, i), |items|)
        invariant messages == At(items, Passing(hash, items, i, before, strict))
        invariant outputs == At(items, Outputs(items, i))
      {
        AtMore(items, Passing(hash, items, i, before, strict), i);
        AtMore(items, Outputs(items, i), i);
        var it := items[i];
        match it.kind {
          case MessageItem => Add(it.id, HashOf(hash, it));
          case AgentMessage => Add(it.id, HashOf(hash, it));
          case FunctionOutput => outputs := outputs + [it];
          case CustomOutput => outputs := outputs + [it];
          case FunctionCall =>
          case CustomCall =>
          case Compaction =>
          case ContextCompaction =>
          case OtherItem => continue;
        }
        messages := messages + [it];
      }
    }

    method NewestIds(limit: nat) returns (kept: seq<string>)
      ensures kept == Newest(ids, limit)
    {
      kept := ids[if |ids| > limit then |ids| - limit else 0..];
    }

    method NewestHashes(limit: nat) returns (kept: seq<string>)
      ensures kept == Newest(hashes, limit)
    {
      kept := hashes[if |hashes| > limit then |hashes| - limit else 0..];
    }
  }

  /** Where the newest user message is, or -1. */
  method LastUser(items: seq<Item>) returns (last: int)
    ensures -1 <= last < |items|
    ensures forall i: nat :: i < |items| ==> (i == last <==> IsLastUser(items, i))
  {
    last := -1;
    for i := 0 to |items|
      invariant -1 <= last < i
      invariant last >= 0 ==> items[last].IsUserMessage()
      invariant forall j :: last < j < i ==> !items[j].IsUserMessage()
    {
      if items[i].IsUserMessage() {
        last := i;
      }
    }
  }
}
