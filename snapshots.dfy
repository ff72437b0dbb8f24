/**
 * The list's content as a diffable-data-source snapshot: an ordered list of
 * sections, each holding an ordered list of typed rows.
 */
module Snapshots {
  import opened FeatureItems

  datatype Section = HeaderSection | MainSection | FooterSection

  /** `Item`: the title row, the inline footer row, or one feature row. */
  datatype Item = HeaderItem | FooterItem | Onboarding(feature: OnboadingFeatureItem)

  /** `Section.allCases` */
  const AllSections: seq<Section> := [HeaderSection, MainSection, FooterSection]

  datatype Snapshot = Snapshot(sections: seq<Section>, items: map<Section, seq<Item>>)

  /** `NSDiffableDataSourceSnapshot()` */
  function EmptySnapshot(): Snapshot {
    Snapshot([], map[])
  }

  /** `appendSections(_:)`: the new sections go last, each empty. UIKit rejects a section it already has. */
  function AppendSections(s: Snapshot, secs: seq<Section>): (r: Snapshot)
    requires forall i :: 0 <= i < |secs| ==> secs[i] !in s.items
    requires forall i, j :: 0 <= i < j < |secs| ==> secs[i] != secs[j]
    ensures r.sections == s.sections + secs
    ensures r.items.Keys == s.items.Keys + set x | x in secs
    ensures forall sec :: sec in s.items ==> sec in r.items && r.items[sec] == s.items[sec]
    ensures forall i :: 0 <= i < |secs| ==> secs[i] in r.items && r.items[secs[i]] == []
  {
    Snapshot(s.sections + secs, map sec | sec in s.items.Keys + (set x | x in secs) :: if sec in s.items then s.items[sec] else [])
  }

  /** `appendSections(Section.allCases)` on an empty snapshot: the three sections, in order, each empty. */
  lemma AppendAllSectionsToEmpty()
    ensures AppendSections(EmptySnapshot(), AllSections)
         == Snapshot(AllSections, map[HeaderSection := [], MainSection := [], FooterSection := []])
  {
    var r := AppendSections(EmptySnapshot(), AllSections);
    assert r.items.Keys == {HeaderSection, MainSection, FooterSection};
  }

  /** `appendItems(_:toSection:)`: the rows go after those the section already holds. */
  function AppendItems(s: Snapshot, rows: seq<Item>, sec: Section): (r: Snapshot)
    requires sec in s.items
    ensures r.sections == s.sections && r.items.Keys == s.items.Keys
    ensures r.items[sec] == s.items[sec] + rows
    ensures forall other :: other in s.items && other != sec ==> r.items[other] == s.items[other]
  {
    Snapshot(s.sections, s.items[sec := s.items[sec] + rows])
  }

  /** `apply(_:to:)` of a section snapshot: replaces one section's rows. */
  function ReplaceSection(s: Snapshot, sec: Section, rows: seq<Item>): (r: Snapshot)
    requires sec in s.items
    ensures r.sections == s.sections && r.items.Keys == s.items.Keys
    ensures r.items[sec] == rows
    ensures forall other :: other in s.items && other != sec ==> r.items[other] == s.items[other]
  {
    Snapshot(s.sections, s.items[sec := rows])
  }

  /** `featureItems.map { Item.onboarding($0) }` */
  function FeatureRows(features: seq<OnboadingFeatureItem>): (rows: seq<Item>)
    ensures |rows| == |features|
    ensures forall i :: 0 <= i < |features| ==> rows[i] == Onboarding(features[i])
    decreases |features|
  {
    if features == [] then [] else [Onboarding(features[0])] + FeatureRows(features[1..])
  }

  /**
   * `delete(_:)` of a section snapshot: removes every occurrence of `x` and
   * keeps every other row; a section without `x` comes back as it was.
   */
  function Delete(rows: seq<Item>, x: Item): (r: seq<Item>)
    ensures forall y :: y in r <==> y in rows && y != x
    ensures |r| <= |rows|
    ensures x in rows ==> |r| < |rows|
    ensures x !in rows ==> r == rows
    decreases |rows|
  {
    if rows == [] then []
    else if rows[0] == x then Delete(rows[1..], x)
    else [rows[0]] + Delete(rows[1..], x)
  }
}
