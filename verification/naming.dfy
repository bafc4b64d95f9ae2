/** The name the controller gives to the HPA it creates for a Tortoise. */
module Naming {

  const TortoiseHPANamePrefix: string := "tortoise-hpa-"

  /** The HPA name for the Tortoise called `tortoiseName` (the Go function is
      called TortoiseVPAName although it builds the HPA name). */
  function TortoiseVPAName(tortoiseName: string): (r: string)
    ensures |r| == |TortoiseHPANamePrefix| + |tortoiseName|
    ensures r[..|TortoiseHPANamePrefix|] == TortoiseHPANamePrefix
    ensures r[|TortoiseHPANamePrefix|..] == tortoiseName
  {
    TortoiseHPANamePrefix + tortoiseName
  }

  /** Distinct Tortoises get distinct HPA names. */
  lemma TortoiseVPANameInjective(a: string, b: string)
    requires TortoiseVPAName(a) == TortoiseVPAName(b)
    ensures a == b
  {
    assert a == TortoiseVPAName(a)[|TortoiseHPANamePrefix|..];
  }

  lemma TortoiseVPANameExample()
    ensures TortoiseVPAName("app") == "tortoise-hpa-app"
  {
  }
}
