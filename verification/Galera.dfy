/** The address list that the AppBinding of a cluster carries for the Galera arbitrator. */
module Galera {
  import opened Options

  function Digit(d: nat): char
    requires d < 10
  {
    '0' + (d as char)
  }

  function Decimal(i: nat): string {
    if i < 10 then [Digit(i)] else Decimal(i / 10) + [Digit(i % 10)]
  }

  function PeerName(name: string, namespace: string, i: nat): string {
    name + "-" + Decimal(i) + "." + name + "-gvr." + namespace
  }

  function Joined(xs: seq<string>): string {
    if xs == [] then ""
    else if |xs| == 1 then xs[0]
    else Joined(xs[..|xs| - 1]) + "," + xs[|xs| - 1]
  }

  const Scheme: string := "gcomm://"

  /** None stands for the database that is not a cluster, which gets no configuration. */
  method GetGarbdConfig(name: string, namespace: string, replicas: int) returns (address: Option<string>, ghost peers: seq<string>)
    ensures replicas <= 1 ==> address == None
    ensures replicas > 1 ==>
      && |peers| == replicas && (forall i :: 0 <= i < replicas ==> peers[i] == PeerName(name, namespace, i))
      && address == Some(Scheme + Joined(peers))
  {
    peers := [];
    if replicas <= 1 {
      return None, [];
    }
    var list: seq<string> := [];
    for i := 0 to replicas
      invariant |list| == i && forall j :: 0 <= j < i ==> list[j] == PeerName(name, namespace, j)
    {
      list := list + [PeerName(name, namespace, i)];
    }
    var joined := Join(list);
    return Some(Scheme + joined), list;
  }

  method Join(xs: seq<string>) returns (r: string)
    ensures r == Joined(xs)
  {
    r := "";
    for i := 0 to |xs|
      invariant r == Joined(xs[..i])
    {
      assert xs[..i + 1][..i] == xs[..i];
      r := if i == 0 then xs[i] else r + "," + xs[i];
    }
    assert xs[..|xs|] == xs;
  }

  /** Reading the list back at the commas. */
  function Split(s: string): seq<string> {
    if s == "" then [""]
    else
      var before := Split(s[..|s| - 1]);
      if s[|s| - 1] == ',' then before + [""] else before[..|before| - 1] + [before[|before| - 1] + [s[|s| - 1]]]
  }

  lemma {:induction false} SplitAppend(s: string, word: string)
    requires ',' !in word
    ensures Split(s + "," + word) == Split(s) + [word]
  {
    var t := s + "," + word;
    if word == "" {
      assert t[..|t| - 1] == s;
    } else {
      var shorter := word[..|word| - 1];
      assert t[..|t| - 1] == s + "," + shorter;
      SplitAppend(s, shorter);
      assert word == shorter + [word[|word| - 1]];
    }
  }

  lemma {:induction false} SplitWord(word: string)
    requires ',' !in word
    ensures Split(word) == [word]
  {
    if word != "" {
      SplitWord(word[..|word| - 1]);
      assert word == word[..|word| - 1] + [word[|word| - 1]];
    }
  }

  /** The list has exactly the peers that were put in, whatever their number. */
  lemma {:induction false} SplitJoined(xs: seq<string>)
    requires xs != [] && forall i :: 0 <= i < |xs| ==> ',' !in xs[i]
    ensures Split(Joined(xs)) == xs
  {
    hide Split;
    if |xs| == 1 {
      SplitWord(xs[0]);
    } else {
      SplitJoined(xs[..|xs| - 1]);
      assert Joined(xs) == Joined(xs[..|xs| - 1]) + "," + xs[|xs| - 1];
      SplitAppend(Joined(xs[..|xs| - 1]), xs[|xs| - 1]);
    }
  }

  lemma {:induction false} DecimalInjective(i: nat, j: nat)
    requires Decimal(i) == Decimal(j)
    ensures i == j
  {
    var d, e := Decimal(i), Decimal(j);
    assert d[|d| - 1] == e[|e| - 1];
    DecimalLength(i);
    DecimalLength(j);
    if i >= 10 {
      assert Decimal(i / 10) == d[..|d| - 1] == e[..|e| - 1] == Decimal(j / 10);
      DecimalInjective(i / 10, j / 10);
    }
  }

  lemma {:induction false} DecimalLength(i: nat)
    ensures |Decimal(i)| == 1 <==> i < 10
    ensures |Decimal(i)| >= 1
  {
    if i >= 10 { DecimalLength(i / 10); }
  }

  lemma {:induction false} DecimalHasNoComma(i: nat)
    ensures ',' !in Decimal(i)
  {
    if i >= 10 { DecimalHasNoComma(i / 10); }
  }

  lemma PeersDistinct(name: string, namespace: string, i: nat, j: nat)
    requires PeerName(name, namespace, i) == PeerName(name, namespace, j)
    ensures i == j
  {
    var p, q := PeerName(name, namespace, i), PeerName(name, namespace, j);
    var rest := 1 + |name| + 5 + |namespace|;
    assert Decimal(i) == p[|name| + 1..|p| - rest];
    assert Decimal(j) == q[|name| + 1..|q| - rest];
    DecimalInjective(i, j);
  }

  lemma PeerHasNoComma(name: string, namespace: string, i: nat)
    requires ',' !in name && ',' !in namespace
    ensures ',' !in PeerName(name, namespace, i)
  {
    DecimalHasNoComma(i);
  }

  /** Names are free of commas, so the address reads back as the peers of the database, all distinct. */
  lemma AddressReadsBack(name: string, namespace: string, peers: seq<string>)
    requires ',' !in name && ',' !in namespace && |peers| > 1
    requires forall i :: 0 <= i < |peers| ==> peers[i] == PeerName(name, namespace, i)
    ensures Split((Scheme + Joined(peers))[|Scheme|..]) == peers
    ensures forall i, j :: 0 <= i < j < |peers| ==> peers[i] != peers[j]
  {
    forall i | 0 <= i < |peers| ensures ',' !in peers[i] { PeerHasNoComma(name, namespace, i); }
    hide PeerName, Split, Joined;
    assert (Scheme + Joined(peers))[|Scheme|..] == Joined(peers);
    SplitJoined(peers);
    forall i, j | 0 <= i < j < |peers| ensures peers[i] != peers[j] {
      if peers[i] == peers[j] { PeersDistinct(name, namespace, i, j); }
    }
  }
}
