/**
 * The cascading province / district / subdistrict dropdowns of client.js.
 * Each `<select>` element is an object whose option list the page changes
 * in place: `innerHTML` assignment resets it to a single placeholder and
 * `appendChild` adds one option at the end.
 */
module CascadingSelects {
  import opened Wrappers

  /**
   * One property of a JavaScript object literal: its key and its value.  An
   * object is the sequence of its properties in insertion order, which is
   * the order `for...in` visits these (non-numeric) keys.
   */
  datatype Entry<V> = Entry(key: string, value: V)

  /** A district key of `locationData` and its subdistrict array. */
  type District = Entry<seq<string>>

  /** A province key of `locationData` and its district object. */
  type Province = Entry<seq<District>>

  /** The `locationData` object literal of client.js. */
  const LocationData: seq<Province> := [
    Entry("สมุทรปราการ", [
      Entry("เมืองสมุทรปราการ", ["ปากน้ำ", "สำโรงเหนือ", "บางเมือง"]),
      Entry("พระประแดง", ["ตลาด", "บางพึ่ง", "บางครุ"])]),
    Entry("กรุงเทพมหานคร", [
      Entry("เขตพระนคร", ["พระบรมมหาราชวัง", "วังบูรพาภิรมย์"]),
      Entry("เขตบางนา", ["บางนาเหนือ", "บางนาใต้"])])
  ]

  /** An `<option>` element: its `value` and its `textContent`. */
  datatype SelectOption = SelectOption(value: string, text: string)

  const DistrictPlaceholder := SelectOption("", "-- กรุณาเลือกอำเภอ --")
  const SubdistrictPlaceholder := SelectOption("", "-- กรุณาเลือกตำบล --")

  /** One option per name, value and text both the name, in order. */
  function OptionsOf(names: seq<string>): (r: seq<SelectOption>)
    ensures |r| == |names|
    ensures forall i :: 0 <= i < |names| ==> r[i] == SelectOption(names[i], names[i])
  {
    if names == [] then [] else [SelectOption(names[0], names[0])] + OptionsOf(names[1..])
  }

  /** The keys of an object, in the order `for...in` visits them. */
  function Keys<V>(obj: seq<Entry<V>>): (r: seq<string>)
    ensures |r| == |obj|
    ensures forall i :: 0 <= i < |obj| ==> r[i] == obj[i].key
  {
    if obj == [] then [] else [obj[0].key] + Keys(obj[1..])
  }

  /** No two properties share a key, as in every JavaScript object. */
  predicate DistinctKeys<V>(obj: seq<Entry<V>>) {
    forall i, j :: 0 <= i < j < |obj| ==> obj[i].key != obj[j].key
  }

  /** `obj[key]`: the property with that key, or `None` (`undefined`). */
  function Find<V>(obj: seq<Entry<V>>, key: string): (r: Option<Entry<V>>)
    ensures r.Some? ==> r.value in obj && r.value.key == key
    ensures r.None? <==> key !in Keys(obj)
  {
    if obj == [] then None
    else if obj[0].key == key then Some(obj[0])
    else Find(obj[1..], key)
  }

  /** The district keys listed after a province change (placeholder not included). */
  function DistrictChoices(tree: seq<Province>, province: string): seq<string> {
    if province != "" && Find(tree, province).Some?
    then Keys(Find(tree, province).value.value)
    else []
  }

  /** `locationData[province][district]` throws: the province key is unknown. */
  predicate DistrictLookupThrows(tree: seq<Province>, province: string, district: string) {
    province != "" && district != "" && Find(tree, province).None?
  }

  /** The subdistricts listed after a district change (placeholder not included). */
  function SubdistrictChoices(tree: seq<Province>, province: string, district: string): seq<string> {
    if province == "" || district == "" || Find(tree, province).None? then []
    else match Find(Find(tree, province).value.value, district)
      case None => []
      case Some(d) => d.value
  }

  /** The district list shows only the placeholder exactly when there is nothing to list. */
  lemma DistrictChoicesEmpty(tree: seq<Province>, province: string)
    ensures DistrictChoices(tree, province) == [] <==>
      province == "" || province !in Keys(tree) ||
      Find(tree, province).value.value == []
  {
  }

  /** With either selection empty nothing is looked up and nothing is listed. */
  lemma EmptySelectionListsNothing(tree: seq<Province>, province: string, district: string)
    requires province == "" || district == ""
    ensures SubdistrictChoices(tree, province, district) == []
    ensures !DistrictLookupThrows(tree, province, district)
  {
  }

  /** For a known province and district the subdistricts are that district's array. */
  lemma SubdistrictChoicesKnown(tree: seq<Province>, p: Province, d: District)
    requires p in tree && d in p.value && p.key != "" && d.key != ""
    requires DistinctKeys(tree) && DistinctKeys(p.value)
    ensures SubdistrictChoices(tree, p.key, d.key) == d.value
  {
    DistinctKeyFindsEntry(tree, p);
    DistinctKeyFindsEntry(p.value, d);
  }

  /** With distinct keys, looking up an entry's key finds that very entry. */
  lemma {:induction false} DistinctKeyFindsEntry<V>(obj: seq<Entry<V>>, e: Entry<V>)
    requires e in obj && DistinctKeys(obj)
    ensures Find(obj, e.key) == Some(e)
  {
    if obj[0] != e {
      assert obj[0].key != e.key by {
        var k :| 0 <= k < |obj| && obj[k] == e;
      }
      assert DistinctKeys(obj[1..]) by {
        forall i, j | 0 <= i < j < |obj| - 1 ensures obj[1..][i].key != obj[1..][j].key {
          assert obj[1..][i] == obj[i + 1] && obj[1..][j] == obj[j + 1];
        }
      }
      DistinctKeyFindsEntry(obj[1..], e);
    }
  }

  /**
   * The bundled data: two provinces listed in source order, keys distinct at
   * both levels, and a sample province and district with their literal contents.
   */
  lemma LocationDataShape()
    ensures Keys(LocationData) == ["สมุทรปราการ", "กรุงเทพมหานคร"]
    ensures DistinctKeys(LocationData)
    ensures forall p :: p in LocationData ==> DistinctKeys(p.value)
    ensures DistrictChoices(LocationData, "กรุงเทพมหานคร") == ["เขตพระนคร", "เขตบางนา"]
    ensures SubdistrictChoices(LocationData, "กรุงเทพมหานคร", "เขตบางนา") == ["บางนาเหนือ", "บางนาใต้"]
  {
  }

  /** A `<select>` element's option list. */
  class SelectElement {
    var options: seq<SelectOption>

    constructor (initial: seq<SelectOption>)
      ensures options == initial
    {
      options := initial;
    }

    /** `select.innerHTML = '<option value="">…</option>'` */
    method ResetTo(placeholder: SelectOption)
      modifies this
      ensures options == [placeholder]
    {
      options := [placeholder];
    }

    /** `select.appendChild(option)` */
    method AppendChild(o: SelectOption)
      modifies this
      ensures options == old(options) + [o]
    {
      options := options + [o];
    }
  }

  /** The loop body shared by the three loops: append one option per name, in order. */
  method AppendAll(sel: SelectElement, names: seq<string>)
    modifies sel
    ensures sel.options == old(sel.options) + OptionsOf(names)
  {
    var i := 0;
    while i < |names|
      invariant 0 <= i <= |names|
      invariant sel.options == old(sel.options) + OptionsOf(names[..i])
    {
      assert OptionsOf(names[..i + 1]) == OptionsOf(names[..i]) + [SelectOption(names[i], names[i])];
      sel.AppendChild(SelectOption(names[i], names[i]));
      i := i + 1;
    }
    assert names[..i] == names;
  }

  /** The three dropdowns of the form and their change handlers. */
  class LocationSelects {
    const provinceSelect: SelectElement
    const districtSelect: SelectElement
    const subdistrictSelect: SelectElement

    ghost predicate Valid() {
      provinceSelect != districtSelect && provinceSelect != subdistrictSelect &&
      districtSelect != subdistrictSelect
    }

    /**
     * Page load: the selects hold what the page's markup gave them (not part
     * of this model), then every province key is appended as an option.
     */
    constructor (htmlProvinces: seq<SelectOption>, htmlDistricts: seq<SelectOption>,
                 htmlSubdistricts: seq<SelectOption>)
      ensures Valid()
      ensures fresh(provinceSelect) && fresh(districtSelect) && fresh(subdistrictSelect)
      ensures provinceSelect.options == htmlProvinces + OptionsOf(Keys(LocationData))
      ensures districtSelect.options == htmlDistricts
      ensures subdistrictSelect.options == htmlSubdistricts
    {
      var p := new SelectElement(htmlProvinces);
      AppendAll(p, Keys(LocationData));
      provinceSelect := p;
      districtSelect := new SelectElement(htmlDistricts);
      subdistrictSelect := new SelectElement(htmlSubdistricts);
    }

    /** The province `change` listener; `selected` is `provinceSelect.value`. */
    method OnProvinceChange(selected: string)
      requires Valid()
      modifies districtSelect, subdistrictSelect
      ensures districtSelect.options == [DistrictPlaceholder] + OptionsOf(DistrictChoices(LocationData, selected))
      ensures subdistrictSelect.options == [SubdistrictPlaceholder]
      ensures provinceSelect.options == old(provinceSelect.options)
    {
      districtSelect.ResetTo(DistrictPlaceholder);
      subdistrictSelect.ResetTo(SubdistrictPlaceholder);
      if selected != "" {
        var found := Find(LocationData, selected);
        if found.Some? {
          AppendAll(districtSelect, Keys(found.value.value));
        }
      }
    }

    /**
     * The district `change` listener; `province` and `district` are the two
     * selects' values.  `threw` reports the TypeError raised when a non-empty
     * province value is not a key of `locationData`: the reset has happened,
     * the rest of the listener has not.
     */
    method OnDistrictChange(province: string, district: string) returns (threw: bool)
      requires Valid()
      modifies subdistrictSelect
      ensures threw <==> DistrictLookupThrows(LocationData, province, district)
      ensures subdistrictSelect.options ==
        [SubdistrictPlaceholder] + OptionsOf(SubdistrictChoices(LocationData, province, district))
      ensures provinceSelect.options == old(provinceSelect.options)
      ensures districtSelect.options == old(districtSelect.options)
    {
      threw := false;
      subdistrictSelect.ResetTo(SubdistrictPlaceholder);
      if province != "" && district != "" {
        var p := Find(LocationData, province);
        if p.None? {
          threw := true;
        } else {
          var d := Find(p.value.value, district);
          if d.Some? {
            AppendAll(subdistrictSelect, d.value.value);
          }
        }
      }
    }
  }
}
