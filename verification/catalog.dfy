/** The static catalogue of language models offered by the site (`MODELS`). */
module Catalog {
  import opened Wrappers

  /** A model entry; `premium` marks the models that need a subscription. */
  datatype ModelDescriptor = ModelDescriptor(id: string, name: string, description: string, premium: bool)

  const TinyLlama := ModelDescriptor(
    "tinyllama", "TinyLlama",
    "A lightweight language model suitable for quick tasks.", false)

  const DeepSeek := ModelDescriptor(
    "deepseek-r1:1.5b", "DeepSeek R1 (1.5b)",
    "A more capable model with better reasoning abilities.", true)

  const Models: seq<ModelDescriptor> := [TinyLlama, DeepSeek]

  /** `catalog.find(m => m.id === id)`: the first entry with that id, if any. */
  function FindIn(catalog: seq<ModelDescriptor>, id: string): (r: Option<ModelDescriptor>)
    ensures r.Some? ==> r.value in catalog && r.value.id == id
    ensures r.Some? ==> exists i :: 0 <= i < |catalog| && catalog[i] == r.value
                                    && forall j :: 0 <= j < i ==> catalog[j].id != id
    ensures r.None? <==> forall m :: m in catalog ==> m.id != id
  {
    if |catalog| == 0 then None
    else if catalog[0].id == id then Some(catalog[0])
    else
      var r := FindIn(catalog[1..], id);
      assert r.Some? ==> exists i :: 0 <= i < |catalog| && catalog[i] == r.value
                                     && forall j :: 0 <= j < i ==> catalog[j].id != id by {
        if r.Some? {
          var i :| 0 <= i < |catalog[1..]| && catalog[1..][i] == r.value
                   && forall j :: 0 <= j < i ==> catalog[1..][j].id != id;
          assert catalog[i + 1] == r.value;
        }
      }
      r
  }

  /** Lookup of a model id in the site's catalogue. */
  function FindModel(id: string): (r: Option<ModelDescriptor>)
    ensures r.Some? ==> r.value in Models && r.value.id == id
    ensures r.Some? ==> exists i :: 0 <= i < |Models| && Models[i] == r.value
                                    && forall j :: 0 <= j < i ==> Models[j].id != id
    ensures r.None? <==> forall m :: m in Models ==> m.id != id
  {
    FindIn(Models, id)
  }

  /** The catalogue knows exactly two ids, and exactly one of them is premium. */
  lemma CatalogContents(id: string)
    ensures FindModel(id).Some? <==> id == "tinyllama" || id == "deepseek-r1:1.5b"
    ensures FindModel(id).Some? ==> (FindModel(id).value.premium <==> id == "deepseek-r1:1.5b")
  {
  }
}
