/** Small value types and string helpers shared by every module of the project. */
module Common {

  datatype Option<+T> = None | Some(value: T)

  datatype Result<+T> = Success(value: T) | Failure(error: string)

  /** strings.Join: the parts in order with `sep` between neighbours. */
  function Join(parts: seq<string>, sep: string): string {
    if |parts| == 0 then ""
    else if |parts| == 1 then parts[0]
    else parts[0] + sep + Join(parts[1..], sep)
  }

  /** Joining a concatenation puts one separator at the seam. */
  lemma {:induction false} JoinAppend(a: seq<string>, b: seq<string>, sep: string)
    requires |a| > 0 && |b| > 0
    ensures Join(a + b, sep) == Join(a, sep) + sep + Join(b, sep)
  {
    if |a| == 1 {
      assert (a + b)[1..] == b;
    } else {
      JoinAppend(a[1..], b, sep);
      assert (a + b)[1..] == a[1..] + b;
      assert a[0] + sep + (Join(a[1..], sep) + sep + Join(b, sep))
          == a[0] + sep + Join(a[1..], sep) + sep + Join(b, sep);
    }
  }

  /** strings.Contains */
  predicate Contains(s: string, part: string) {
    exists i :: 0 <= i <= |s| - |part| && FoundAt(s, part, i)
  }

  /** Contained is what the text can be cut around. */
  lemma ContainsExactly(s: string, part: string)
    ensures Contains(s, part) <==> exists a, b: string :: s == a + part + b
  {
    if i :| 0 <= i <= |s| - |part| && FoundAt(s, part, i) {
      assert s == s[..i] + part + s[i + |part|..];
    }
    if a, b: string :| s == a + part + b {
      assert FoundAt(s, part, |a|);
    }
  }

  predicate FoundAt(s: string, part: string, i: nat)
    requires i + |part| <= |s|
  {
    s[i..i + |part|] == part
  }

  function Lookup(m: map<string, string>, key: string): Option<string> {
    if key in m then Some(m[key]) else None
  }

  /** The map left by writing the pairs one after the other. */
  function Writes(kvs: seq<(string, string)>): map<string, string> {
    if kvs == [] then map[]
    else Writes(kvs[..|kvs| - 1])[kvs[|kvs| - 1].0 := kvs[|kvs| - 1].1]
  }

  /** The pair at i is the last one written under its key. */
  predicate LastWriteAt(kvs: seq<(string, string)>, i: nat)
    requires i < |kvs|
  {
    forall j :: i < j < |kvs| ==> kvs[j].0 != kvs[i].0
  }

  /** A key is present exactly when it was written, and there are no more keys than writes. */
  lemma {:induction false} WrittenKeys(kvs: seq<(string, string)>)
    ensures Writes(kvs).Keys == set kv | kv in kvs :: kv.0
    ensures |Writes(kvs)| <= |kvs|
  {
    if kvs != [] {
      var init, last := kvs[..|kvs| - 1], kvs[|kvs| - 1];
      WrittenKeys(init);
      assert kvs == init + [last];
      assert Writes(kvs).Keys == Writes(init).Keys + {last.0};
      assert (set kv | kv in kvs :: kv.0) == (set kv | kv in init :: kv.0) + {last.0};
      CountKeys(Writes(init), last.0, last.1);
    }
  }

  lemma CountKeys(m: map<string, string>, k: string, v: string)
    ensures |m[k := v]| <= |m| + 1
  {
    assert m[k := v].Keys == m.Keys + {k};
    assert |m[k := v]| == |m[k := v].Keys| && |m| == |m.Keys|;
    if k in m.Keys {
      assert m.Keys + {k} == m.Keys;
    }
  }

  /** Every key holds what was written last under it. */
  lemma {:induction false} LastWriteWins(kvs: seq<(string, string)>, i: nat)
    requires i < |kvs| && LastWriteAt(kvs, i)
    ensures kvs[i].0 in Writes(kvs) && Writes(kvs)[kvs[i].0] == kvs[i].1
  {
    var init := kvs[..|kvs| - 1];
    if i < |kvs| - 1 {
      assert kvs[|kvs| - 1].0 != kvs[i].0;
      assert forall j :: i < j < |init| ==> init[j] == kvs[j];
      assert LastWriteAt(init, i);
      LastWriteWins(init, i);
    }
  }
}
