/** Guard de-duplication: guards already fought around the source tile do not
    block again at the destination tile. */
module Guards {
  import opened PathNodes

  /** The destination guards that do not also guard the source. */
  function Remaining(dest: seq<ObjRef>, src: seq<ObjRef>): (r: seq<ObjRef>)
    ensures forall g :: g in r <==> g in dest && g !in src
    ensures forall g :: multiset(r)[g] == if g in src then 0 else multiset(dest)[g]
    ensures |r| <= |dest|
  {
    if |dest| == 0 then []
    else
      assert dest == [dest[0]] + dest[1..];
      var rest := Remaining(dest[1..], src);
      if dest[0] in src then rest else [dest[0]] + rest
  }

  /** Reference definition: the guards of the destination were all met at the
      source already, and the source really was guarded. */
  predicate AlreadyBypassed(dest: seq<ObjRef>, src: seq<ObjRef>)
  {
    |src| > 0 && forall g :: g in dest ==> g in src
  }

  /** Erasing the source guards leaves nothing exactly when every destination
      guard is a source guard. */
  lemma RemainingEmptyIff(dest: seq<ObjRef>, src: seq<ObjRef>)
    ensures |Remaining(dest, src)| == 0 <==> forall g :: g in dest ==> g in src
  {
  }
}
