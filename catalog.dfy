/** The static supplement catalog: twelve read-only entries with distinct ids,
    and the lookup by id that the engine uses to admit a candidate. */
module Catalog {
  import opened Wrappers

  /** A catalog entry. `matchReason` and `priority` are not stored here: the
      former is added to recommendations, the latter is never set. */
  datatype Supplement = Supplement(
    id: string,
    name: string,
    description: string,
    tags: seq<string>,
    searchKeyword: string)

  const SupplementsDb: seq<Supplement> := [
    Supplement("magnesium", "마그네슘",
      "신경 안정, 근육 이완, 수면 질 개선에 도움을 줍니다. 눈 떨림이나 스트레스가 많을 때 효과적입니다.",
      ["눈 떨림", "수면", "스트레스", "근육"], "마그네슘"),
    Supplement("vitamin_b_complex", "비타민 B 컴플렉스",
      "에너지 생성과 피로 회복에 필수적인 고함량 비타민입니다. 만성 피로와 구내염에 좋습니다.",
      ["만성 피로", "활력", "에너지"], "비타민B"),
    Supplement("omega3", "오메가-3 (rTG)",
      "혈행 개선과 건조한 눈 관리에 필수입니다. 중성지방 수치를 낮추는 데도 도움을 줍니다.",
      ["혈액 순환", "눈 건조", "두뇌"], "EPA 및 DHA"),
    Supplement("vitamin_d", "비타민 D3",
      "현대인의 필수 영양소로 뼈 건강, 면역력 증진, 우울감 완화에 관여합니다.",
      ["뼈 건강", "면역", "실내 활동"], "비타민D"),
    Supplement("milk_thistle", "밀크씨슬",
      "간 세포 보호를 도와 피로 회복과 음주 전후 간 건강 관리에 좋습니다.",
      ["간 건강", "숙취", "피로"], "밀크씨슬"),
    Supplement("probiotics", "프로바이오틱스 (유산균)",
      "장 건강은 면역력의 핵심입니다. 배변 활동 원활 및 소화기 불편감을 완화합니다.",
      ["장 건강", "소화", "가스", "면역"], "프로바이오틱스"),
    Supplement("vitamin_c", "비타민 C",
      "항산화 작용과 면역 기능 유지에 필요하며, 콜라겐 형성을 돕습니다.",
      ["면역", "피부", "항산화"], "비타민C"),
    Supplement("zinc", "아연",
      "정상적인 면역 기능과 세포 분열에 필요합니다. 남성 활력 및 손톱 건강에도 관여합니다.",
      ["면역", "손톱", "남성 활력"], "아연"),
    Supplement("l_theanine", "L-테아닌",
      "스트레스로 인한 긴장 완화에 도움을 주어 마음을 차분하게 해줍니다.",
      ["스트레스", "수면", "이완"], "테아닌"),
    Supplement("biotin", "비오틴",
      "모발과 손톱의 구성 성분인 케라틴 합성을 돕습니다.",
      ["탈모", "손톱", "피부"], "비오틴"),
    Supplement("msm", "MSM (식이유황)",
      "관절 및 연골 건강에 도움을 줄 수 있으며 통증 완화에 기여합니다.",
      ["관절", "통증", "연골"], "엠에스엠"),
    Supplement("coq10", "코엔자임 Q10",
      "항산화 및 높은 혈압 감소에 도움을 줄 수 있으며, 심장 에너지 생성에 관여합니다.",
      ["항산화", "혈압", "활력"], "코엔자임Q10")
  ]

  /** The ids of the catalog, in catalog order. */
  const CatalogIds: seq<string> := ["magnesium", "vitamin_b_complex", "omega3", "vitamin_d", "milk_thistle", "probiotics", "vitamin_c", "zinc", "l_theanine", "biotin", "msm", "coq10"]

  /** The first entry of `db` whose id is `id`, as `Array.prototype.find` returns it. */
  function FindIn(db: seq<Supplement>, id: string): (r: Option<Supplement>)
    ensures r.Some? <==> exists i :: 0 <= i < |db| && db[i].id == id
    ensures r.Some? ==> r.value in db && r.value.id == id
    ensures r.Some? ==> exists i :: 0 <= i < |db| && db[i] == r.value && forall j :: 0 <= j < i ==> db[j].id != id
  {
    if db == [] then None
    else if db[0].id == id then Some(db[0])
    else
      var r := FindIn(db[1..], id);
      assert forall i :: 0 < i < |db| ==> db[i] == db[1..][i - 1];
      r
  }

  function Find(id: string): (r: Option<Supplement>)
    ensures r.Some? <==> id in CatalogIds
    ensures r.Some? ==> r.value in SupplementsDb && r.value.id == id
  {
    var r := FindIn(SupplementsDb, id);
    IdsAgree();
    assert r.Some? ==> id in CatalogIds by {
      if r.Some? {
        var i :| 0 <= i < |SupplementsDb| && SupplementsDb[i].id == id;
        assert CatalogIds[i] == id;
      }
    }
    assert id in CatalogIds ==> r.Some? by {
      if id in CatalogIds {
        var i :| 0 <= i < |CatalogIds| && CatalogIds[i] == id;
        assert SupplementsDb[i].id == id;
      }
    }
    r
  }

  lemma IdsAgree()
    ensures |CatalogIds| == |SupplementsDb| == 12
    ensures forall i :: 0 <= i < |SupplementsDb| ==> SupplementsDb[i].id == CatalogIds[i]
  {
  }

  /** No two catalog entries share an id, so the lookup by id is unambiguous. */
  lemma CatalogIdsDistinct()
    ensures forall i, j :: 0 <= i < j < |SupplementsDb| ==> SupplementsDb[i].id != SupplementsDb[j].id
  {
    IdsAgree();
  }
}
