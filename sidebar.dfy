/** The colour tab of the catalogue sidebar (components/Sidebar.tsx, case 'colors'):
    which colours are offered, and whether they are split into the colours recommended
    for the selected room and all the others. */
module Sidebar {
  import opened Wrappers
  import opened Types
  import opened Text

  /** `rooms.find(r => r.id === id)`: the first room with that id, if any. */
  function FindRoom(rooms: seq<Room>, id: string): (r: Option<Room>)
    ensures r.Some? <==> exists i :: 0 <= i < |rooms| && rooms[i].id == id
    ensures r.Some? ==> exists i :: 0 <= i < |rooms| && rooms[i] == r.value && r.value.id == id &&
                                    forall j :: 0 <= j < i ==> rooms[j].id != id
  {
    if |rooms| == 0 then None
    else if rooms[0].id == id then Some(rooms[0])
    else
      var rest := FindRoom(rooms[1..], id);
      assert rest.Some? ==> exists i :: 0 <= i < |rooms| && rooms[i] == rest.value && rest.value.id == id &&
                                       forall j :: 0 <= j < i ==> rooms[j].id != id by {
        if rest.Some? {
          var k :| 0 <= k < |rooms[1..]| && rooms[1..][k] == rest.value && rest.value.id == id &&
                   forall j :: 0 <= j < k ==> rooms[1..][j].id != id;
          assert rooms[k + 1] == rest.value;
          assert forall j :: 0 <= j < k + 1 ==> rooms[j].id != id by {
            forall j | 0 <= j < k + 1 ensures rooms[j].id != id {
              if j > 0 { assert rooms[j] == rooms[1..][j - 1]; }
            }
          }
        }
      }
      assert (exists i :: 0 <= i < |rooms| && rooms[i].id == id) ==> rest.Some? by {
        if exists i :: 0 <= i < |rooms| && rooms[i].id == id {
          var i :| 0 <= i < |rooms| && rooms[i].id == id;
          assert rooms[1..][i - 1].id == id;
        }
      }
      rest
  }

  /** `colors.filter(c => ids.includes(c.id))` when `recommended` holds, and
      `colors.filter(c => !ids.includes(c.id))` otherwise. */
  function KeepColors(colors: seq<Color>, ids: seq<string>, recommended: bool): (r: seq<Color>)
    ensures |r| <= |colors|
    ensures forall c :: c in r <==> c in colors && ((c.id in ids) == recommended)
  {
    if |colors| == 0 then []
    else
      var rest := KeepColors(colors[1..], ids, recommended);
      assert forall c :: c in colors <==> c == colors[0] || c in colors[1..];
      if (colors[0].id in ids) == recommended then [colors[0]] + rest else rest
  }

  /** What the colour tab shows: the whole catalogue as one list, or the colours
      recommended for the selected room followed by the remaining ones. */
  datatype ColorPanel =
    | AllColors(colors: seq<Color>)
    | Partitioned(room: Room, recommended: seq<Color>, others: seq<Color>)

  /** The colour tab for the selected room id (`selectedRoom?.id`, `undefined` when no room
      is selected). A falsy id, an id no room has, and a room without a map entry all give
      the whole catalogue; a map entry, even an empty one, gives the split view. */
  function ColorPanelFor(rooms: seq<Room>, colors: seq<Color>, roomColorMap: map<string, seq<string>>,
                         selectedRoomId: Option<string>): ColorPanel
  {
    var selectedRoom := if Present(selectedRoomId) then FindRoom(rooms, selectedRoomId.value) else None;
    if selectedRoom.Some? && selectedRoom.value.id in roomColorMap then
      var ids := roomColorMap[selectedRoom.value.id];
      Partitioned(selectedRoom.value, KeepColors(colors, ids, true), KeepColors(colors, ids, false))
    else
      AllColors(colors)
  }

  /** The "all colours" heading with its list: always in the single-list view, and in the
      split view only when some colour is not recommended. */
  predicate ShowsAllColorsSection(panel: ColorPanel) {
    match panel
    case AllColors(_) => true
    case Partitioned(_, _, others) => |others| > 0
  }

  /** `xs` is `ys` with some elements left out, the rest in their original order. */
  predicate IsSubsequence(xs: seq<Color>, ys: seq<Color>)
    decreases |ys|
  {
    if |xs| == 0 then true
    else if |ys| == 0 then false
    else (xs[0] == ys[0] && IsSubsequence(xs[1..], ys[1..])) || IsSubsequence(xs, ys[1..])
  }

  /** The split view appears exactly when a non-empty id names a catalogue room that has
      a map entry; the single list is then the full catalogue. */
  lemma ColorPanelCases(rooms: seq<Room>, colors: seq<Color>, roomColorMap: map<string, seq<string>>,
                        selectedRoomId: Option<string>)
    ensures var panel := ColorPanelFor(rooms, colors, roomColorMap, selectedRoomId);
            && (panel.Partitioned? <==>
                  Present(selectedRoomId) && selectedRoomId.value in roomColorMap &&
                  exists i :: 0 <= i < |rooms| && rooms[i].id == selectedRoomId.value)
            && (panel.AllColors? ==> panel.colors == colors)
            && (panel.Partitioned? ==> panel.room.id == selectedRoomId.value && panel.room in rooms)
  {
  }

  /** In the split view the recommended colours are exactly the catalogue colours listed
      for the room, the others exactly the remaining ones. */
  lemma PartitionMembership(rooms: seq<Room>, colors: seq<Color>, roomColorMap: map<string, seq<string>>,
                            selectedRoomId: Option<string>, c: Color)
    requires ColorPanelFor(rooms, colors, roomColorMap, selectedRoomId).Partitioned?
    ensures var panel := ColorPanelFor(rooms, colors, roomColorMap, selectedRoomId);
            var ids := roomColorMap[panel.room.id];
            && (c in panel.recommended <==> c in colors && c.id in ids)
            && (c in panel.others <==> c in colors && c.id !in ids)
            && !(c in panel.recommended && c in panel.others)
  {
  }

  /** The "all colours" section is missing only in a split view where every catalogue
      colour is recommended for the room. */
  lemma AllColorsSectionShown(rooms: seq<Room>, colors: seq<Color>, roomColorMap: map<string, seq<string>>,
                              selectedRoomId: Option<string>)
    ensures var panel := ColorPanelFor(rooms, colors, roomColorMap, selectedRoomId);
            ShowsAllColorsSection(panel) <==>
              panel.AllColors? || exists c :: c in colors && c.id !in roomColorMap[panel.room.id]
  {
    var panel := ColorPanelFor(rooms, colors, roomColorMap, selectedRoomId);
    if panel.Partitioned? && |panel.others| > 0 {
      assert panel.others[0] in panel.others;
    }
  }

  /** Both filtered lists keep the catalogue's order. */
  lemma {:induction false} KeepColorsInCatalogueOrder(colors: seq<Color>, ids: seq<string>, recommended: bool)
    ensures IsSubsequence(KeepColors(colors, ids, recommended), colors)
    decreases |colors|
  {
    if |colors| > 0 {
      var rest := KeepColors(colors[1..], ids, recommended);
      KeepColorsInCatalogueOrder(colors[1..], ids, recommended);
      if (colors[0].id in ids) == recommended {
        assert KeepColors(colors, ids, recommended) == [colors[0]] + rest;
        assert ([colors[0]] + rest)[1..] == rest;
      } else {
        KeepRestIsSubsequence(rest, colors);
      }
    }
  }

  /** A subsequence of a sequence's tail is a subsequence of the sequence. */
  lemma KeepRestIsSubsequence(xs: seq<Color>, ys: seq<Color>)
    requires |ys| > 0 && IsSubsequence(xs, ys[1..])
    ensures IsSubsequence(xs, ys)
  {
  }

  /** Together the two lists hold every catalogue colour exactly as often as the catalogue. */
  lemma {:induction false} KeepColorsPartition(colors: seq<Color>, ids: seq<string>)
    ensures multiset(KeepColors(colors, ids, true)) + multiset(KeepColors(colors, ids, false)) == multiset(colors)
    decreases |colors|
  {
    if |colors| > 0 {
      KeepColorsPartition(colors[1..], ids);
      assert colors == [colors[0]] + colors[1..];
    }
  }

  /** The lists depend only on which ids the map entry holds, not on their order there. */
  lemma {:induction false} KeepColorsIgnoresIdOrder(colors: seq<Color>, ids: seq<string>, ids': seq<string>,
                                                    recommended: bool)
    requires forall id :: id in ids <==> id in ids'
    ensures KeepColors(colors, ids, recommended) == KeepColors(colors, ids', recommended)
    decreases |colors|
  {
    if |colors| > 0 {
      KeepColorsIgnoresIdOrder(colors[1..], ids, ids', recommended);
    }
  }

  /** The split view partitions the catalogue: both lists in catalogue order, no colour in
      both, and every catalogue colour in one of them as often as in the catalogue. */
  lemma PanelPartitionsCatalogue(rooms: seq<Room>, colors: seq<Color>, roomColorMap: map<string, seq<string>>,
                                 selectedRoomId: Option<string>)
    requires ColorPanelFor(rooms, colors, roomColorMap, selectedRoomId).Partitioned?
    ensures var panel := ColorPanelFor(rooms, colors, roomColorMap, selectedRoomId);
            && IsSubsequence(panel.recommended, colors)
            && IsSubsequence(panel.others, colors)
            && multiset(panel.recommended) + multiset(panel.others) == multiset(colors)
  {
    var panel := ColorPanelFor(rooms, colors, roomColorMap, selectedRoomId);
    var ids := roomColorMap[panel.room.id];
    KeepColorsInCatalogueOrder(colors, ids, true);
    KeepColorsInCatalogueOrder(colors, ids, false);
    KeepColorsPartition(colors, ids);
  }
}
