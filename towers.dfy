/** The tower cost table of components/towers.go. */
module Towers {

  /** costList: both tower kinds cost 50. */
  const CostList: map<string, int> := map["Melee" := 50, "Ranged" := 50]

  function GetCostList(): (m: map<string, int>)
    ensures m.Keys == {"Melee", "Ranged"}
    ensures forall n :: n in m ==> m[n] == 50
  {
    CostList
  }

  /** GetCost: the listed cost, or Go's zero value for a name the map lacks. */
  function GetCost(name: string): (c: int)
    ensures name in GetCostList() ==> c == GetCostList()[name]
    ensures name !in GetCostList() ==> c == 0
  {
    if name in CostList then CostList[name] else 0
  }

  lemma KnownCosts()
    ensures GetCost("Ranged") == 50 && GetCost("Melee") == 50
  {
  }

  lemma UnknownCostIsZero(name: string)
    requires name != "Ranged" && name != "Melee"
    ensures GetCost(name) == 0
  {
  }
}
