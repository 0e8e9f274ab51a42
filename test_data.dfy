/**
 * The catalog behind the quiz (src/data/testData.ts): the thirty majors, the
 * twenty exam blocks, whose `majors` lists are derived from the majors, the
 * sixty Holland questions and the descriptions of the six Holland types.
 */
module TestData {
  import opened Wrappers
  import opened JsArray
  import opened JsString

  /** The six Holland (RIASEC) categories. */
  datatype Cat = R | I | A | S | E | C

  /** The one-letter key under which a category appears in score objects. */
  function CatName(c: Cat): (r: string)
    ensures |r| == 1
  {
    match c
    case R => "R"
    case I => "I"
    case A => "A"
    case S => "S"
    case E => "E"
    case C => "C"
  }

  /** Distinct categories have distinct keys. */
  lemma CatNameInjective(c: Cat, d: Cat)
    ensures CatName(c) == CatName(d) <==> c == d
  {
  }

  datatype Major = Major(id: int, name: string, examBlocks: seq<string>, subjects: seq<string>,
                         hollandTypes: seq<string>, description: string)

  /** An exam block; its `majors` list is computed from the majors once, when the table is built. */
  datatype TestBlock = TestBlock(id: string, name: string)
  {
    /** `majorsData.filter(m => m.examBlocks.includes(id))`. */
    function Majors(): seq<Major>
    {
      MajorsOfBlock(id)
    }
  }

  datatype HollandQuestion = HollandQuestion(id: int, text: string, typ: Cat)

  datatype TypeDescription = TypeDescription(name: string, description: string, color: string)

  /** `majorsData`. */
  const MajorsData: seq<Major> := [
    Major(1, "Công nghệ thông tin", ["A00", "A01"], ["Toán", "Lý"], ["I", "R"],
          "Cần tư duy logic, giỏi công nghệ."),
    Major(2, "Khoa học dữ liệu – AI", ["A00", "A01"], ["Toán", "Tin"], ["I", "C"],
          "Ngành mới, lương cao, nhiều cơ hội quốc tế."),
    Major(3, "Y khoa", ["B00"], ["Toán", "Hóa", "Sinh"], ["S", "I"],
          "Đòi hỏi kiên nhẫn, chăm sóc, nghiên cứu."),
    Major(4, "Dược", ["B00"], ["Toán", "Hóa", "Sinh"], ["I", "C"],
          "Hợp học sinh tỉ mỉ, thích nghiên cứu."),
    Major(5, "Điều dưỡng", ["B00", "C00"], ["Sinh", "Văn"], ["S", "C"],
          "Cần đồng cảm, chăm sóc con người."),
    Major(6, "Luật", ["C00", "D01"], ["Văn", "Sử", "Địa", "Anh"], ["E", "C"],
          "Hợp học sinh thích tranh luận, thuyết phục."),
    Major(7, "Kinh tế", ["A00", "A01"], ["Toán"], ["C", "E"],
          "Nhanh nhẹn, hoát bát, tư duy logic."),
    Major(8, "Quản trị Kinh doanh", ["A00", "A01"], ["Toán"], ["E", "C"],
          "Ngành phổ biến, thiên về lãnh đạo."),
    Major(9, "Tài chính – Ngân hàng", ["A00", "A01"], ["Toán"], ["C", "E"],
          "Yêu cầu giỏi số liệu, giao tiếp."),
    Major(10, "Kế toán – Kiểm toán", ["A00", "A01"], ["Toán"], ["C", "R"],
          "Cần cẩn thận, làm việc chính xác."),
    Major(11, "Marketing", ["A00", "A01"], ["Văn", "Toán"], ["E", "A"],
          "Ngành hot, cần sáng tạo + phân tích."),
    Major(12, "Thương mại điện tử", ["A00", "A01"], ["Toán"], ["E", "I"],
          "Kết hợp CNTT + kinh doanh."),
    Major(13, "Ngôn ngữ Anh", ["D01"], ["Anh", "Văn"], ["S", "E"],
          "Cơ hội du học, làm việc quốc tế."),
    Major(14, "Ngôn ngữ Trung", ["D01", "D04"], ["Anh", "Văn"], ["S", "E"],
          "Ngành hot do nhu cầu hợp tác kinh tế."),
    Major(15, "Quan hệ quốc tế", ["D01", "C00"], ["Anh", "Văn"], ["E", "S"],
          "Hợp học sinh hướng ngoại, thích ngoại giao."),
    Major(16, "Báo chí – Truyền thông", ["C00", "D01"], ["Văn", "Sử"], ["A", "S"],
          "Cần sáng tạo, giao tiếp, nhanh nhạy."),
    Major(17, "Tâm lý học", ["B00", "D01"], ["Văn", "Sinh"], ["S", "I"],
          "Phù hợp học sinh yêu con người, lắng nghe."),
    Major(18, "Sư phạm Tiểu học", ["C00", "D01"], ["Văn", "Sử"], ["S", "A"],
          "Cần tình thương, kiên nhẫn."),
    Major(19, "Sư phạm Toán", ["A00", "A01"], ["Toán", "Lý"], ["S", "I"],
          "Hợp học sinh yêu môn Toán."),
    Major(20, "Kiến trúc", ["V00", "H00", "H01"], ["Toán", "Vẽ"], ["A", "R"],
          "Cần tư duy không gian, sáng tạo."),
    Major(21, "Thiết kế đồ họa", ["H00", "H01", "D01"], ["Vẽ", "Văn"], ["A", "S"],
          "Hợp học sinh thích nghệ thuật, công nghệ."),
    Major(22, "Công nghệ kỹ thuật cơ khí", ["A00", "A01"], ["Toán", "Lý"], ["R", "I"],
          "Cần kỹ năng thực hành, kỹ thuật."),
    Major(23, "Công nghệ kỹ thuật điện – điện tử", ["A00", "A01"], ["Toán", "Lý"], ["R", "I"],
          "Ứng dụng cao, dễ có việc."),
    Major(24, "Công nghệ sinh học", ["B00", "A00"], ["Toán", "Hóa"], ["I", "R"],
          "Ngành nghiên cứu ứng dụng y – nông – thực phẩm."),
    Major(25, "Nông nghiệp công nghệ cao", ["B00", "A00"], ["Sinh", "Hóa"], ["R", "I"],
          "Xu hướng bền vững, khởi nghiệp."),
    Major(26, "Khoa học môi trường", ["B00", "A00"], ["Hóa", "Sinh"], ["I", "R", "S"],
          "Ngành xanh, nhu cầu tương lai lớn."),
    Major(27, "Logistics & Quản lý chuỗi cung ứng", ["A00", "A01", "D01"], ["Toán", "Anh"], [],
          "Ngành hot toàn cầu, cần tiếng Anh tốt."),
    Major(28, "Du lịch – Nhà hàng – Khách sạn", ["D01", "C00"], ["Văn", "Anh"], ["S", "E"],
          "Cần giao tiếp, phục vụ, hướng ngoại."),
    Major(29, "Hàng không (Quản trị, Phi công)", ["A00", "A01", "D01"], ["Toán", "Lý"], ["R", "C"],
          "Ngành hot, yêu cầu ngoại ngữ và sức khỏe."),
    Major(30, "Công an – Quân đội", ["A00", "C00", "D01"], ["Toán", "Văn"], ["C", "E"],
          "Cần thể lực, kỷ luật, trách nhiệm.")
  ]

  /** `majorsData.filter(m => m.examBlocks.includes(id))`: the majors a block lists. */
  function MajorsOfBlock(id: string): seq<Major>
  {
    NamingBlock(MajorsData, id)
  }

  /** The majors of `catalog` that name block `id`, in catalog order. */
  function NamingBlock(catalog: seq<Major>, id: string): seq<Major>
  {
    Filter(catalog, (m: Major) => id in m.examBlocks)
  }

  /** The rows of `testBlocks`: each block's id and the subjects its name lists. */
  const BlockRows: seq<(string, seq<string>)> := [
    ("A00", ["Toán", "Lý", "Hóa"]),
    ("A01", ["Toán", "Lý", "Anh"]),
    ("B00", ["Toán", "Hóa", "Sinh"]),
    ("C00", ["Văn", "Sử", "Địa"]),
    ("C01", ["Văn", "Toán", "Lý"]),
    ("C03", ["Văn", "Toán", "Sử"]),
    ("C08", ["Văn", "Hóa", "Sinh"]),
    ("C14", ["Văn", "Toán", "GDCD"]),
    ("D01", ["Toán", "Văn", "Anh"]),
    ("D07", ["Toán", "Hóa", "Anh"]),
    ("D08", ["Toán", "Sinh", "Anh"]),
    ("D09", ["Toán", "Sử", "Anh"]),
    ("D14", ["Văn", "Sử", "Anh"]),
    ("D15", ["Văn", "Địa", "Anh"]),
    ("D17", ["Toán", "Địa", "Anh"]),
    ("H00", ["Văn", "Năng khiếu Vẽ", "Hình họa"]),
    ("H01", ["Toán", "Văn", "Năng khiếu Vẽ"]),
    ("R00", ["Thanh nhạc 1", "Thanh nhạc 2", "Văn"]),
    ("V00", ["Toán", "Lý", "Năng khiếu Vẽ"]),
    ("V01", ["Toán", "Văn", "Năng khiếu Vẽ"])
  ]

  /** `testBlocks`: block k is `BlockRows[k]`, named `Khối <id> (<s1>, <s2>, <s3>)`. */
  const TestBlocks: seq<TestBlock> :=
    seq(|BlockRows|, k requires 0 <= k < |BlockRows| => TestBlock(BlockRows[k].0, BlockName(BlockRows[k].0, BlockRows[k].1)))

  /** The ten Realistic (R) questions. */
  const RealisticQuestions: seq<HollandQuestion> := [
    HollandQuestion(1, "Tự mua và lắp ráp máy vi tính theo ý của mình", R),
    HollandQuestion(2, "Lắp ráp tủ theo hướng dẫn của youtube", R),
    HollandQuestion(3, "Trang điểm cho mình hay bạn theo hướng dẫn của youtube", R),
    HollandQuestion(4, "Cắt tỉa cây cảnh", R),
    HollandQuestion(5, "Tháo điện thoại di động hay máy tính để tìm hiểu", R),
    HollandQuestion(6, "Tham gia một chuyến du lịch thám hiểm (như khám phá hang động, núi rừng)", R),
    HollandQuestion(7, "Chăm sóc vật nuôi", R),
    HollandQuestion(8, "Sửa xe", R),
    HollandQuestion(9, "Làm đồ nội thất", R),
    HollandQuestion(10, "Chơi một môn thể thao", R)
  ]

  /** The ten Social (S) questions. */
  const SocialQuestions: seq<HollandQuestion> := [
    HollandQuestion(11, "Kết nối hai người bạn với nhau", S),
    HollandQuestion(12, "Tham gia ngày Trái Đất bằng cách lượm rác hay tắt điện", S),
    HollandQuestion(13, "Hướng dẫn khách nước ngoài chỗ ăn ngon", S),
    HollandQuestion(14, "Cứu động vật bị bỏ rơi ngoài đường", S),
    HollandQuestion(15, "Kể chuyện cười cho bạn bè nghe", S),
    HollandQuestion(16, "Dạy trẻ con chơi một trò chơi hay một môn thể thao", S),
    HollandQuestion(17, "Lắng nghe bạn bè tâm sự về vấn đề của họ", S),
    HollandQuestion(18, "Giúp bạn bè giải quyết vấn đề liên quan tới tình yêu", S),
    HollandQuestion(19, "Tham gia một chuyến đi từ thiện", S),
    HollandQuestion(20, "Sẵn sàng giúp thầy cô, bạn bè khi thấy họ cần", S)
  ]

  /** The ten Investigative (I) questions. */
  const InvestigativeQuestions: seq<HollandQuestion> := [
    HollandQuestion(21, "Thăm bảo tàng công nghệ", I),
    HollandQuestion(22, "Tìm hiểu sự hình thành các vì sao", I),
    HollandQuestion(23, "Tìm hiểu về văn hóa quốc gia mà mình thích", I),
    HollandQuestion(24, "Tìm hiểu về tâm lý con người", I),
    HollandQuestion(25, "Đọc một cuốn sách về tương lai con người trong một triệu năm nữa", I),
    HollandQuestion(26, "Đọc sách báo hay xem youtube video về vũ trụ", I),
    HollandQuestion(27, "Tìm hiểu về nguồn gốc của một dịch bệnh", I),
    HollandQuestion(28, "Đọc các bài báo về ảnh hưởng của AI (trí tuệ nhân tạo) lên nghề nghiệp tương lai", I),
    HollandQuestion(29, "Xem youtube video về thế giới động vật", I),
    HollandQuestion(30, "Tiến hành thí nghiệm hóa học", I)
  ]

  /** The ten Artistic (A) questions. */
  const ArtisticQuestions: seq<HollandQuestion> := [
    HollandQuestion(31, "Vẽ tranh", A),
    HollandQuestion(32, "Viết truyện ngắn", A),
    HollandQuestion(33, "Chơi một nhạc cụ", A),
    HollandQuestion(34, "Chỉnh sửa phim", A),
    HollandQuestion(35, "Thiết kế poster cho một sự kiện", A),
    HollandQuestion(36, "Vẽ phim hoạt hình", A),
    HollandQuestion(37, "Hát cho một ban nhạc", A),
    HollandQuestion(38, "Biểu diễn nhảy hiện đại", A),
    HollandQuestion(39, "Dẫn chương trình (MC) cho một sự kiện", A),
    HollandQuestion(40, "Viết kịch bản cho phim hoặc chương trình truyền hình", A)
  ]

  /** The ten Enterprising (E) questions. */
  const EnterprisingQuestions: seq<HollandQuestion> := [
    HollandQuestion(41, "Làm cán bộ lớp", E),
    HollandQuestion(42, "Tham gia một khóa học về quản lý tài chính", E),
    HollandQuestion(43, "Tham dự một trại huấn luyện kỹ năng lãnh đạo dành cho lứa tuổi thanh thiếu niên", E),
    HollandQuestion(44, "Lập kế hoạch làm việc cho thành viên nhóm", E),
    HollandQuestion(45, "Kiếm tiền bằng cách kinh doanh online", E),
    HollandQuestion(46, "Nói trước đám đông về một đề tài bạn thích", E),
    HollandQuestion(47, "Tham gia xây dựng các luật lệ mới cho lớp/trường", E),
    HollandQuestion(48, "Thuyết phục cha mẹ theo ý mình", E),
    HollandQuestion(49, "Tổ chức đi chơi cho một nhóm bạn", E),
    HollandQuestion(50, "Kiếm tiền bằng cách làm thêm", E)
  ]

  /** The ten Conventional (C) questions. */
  const ConventionalQuestions: seq<HollandQuestion> := [
    HollandQuestion(51, "Lập kế hoạch chi tiêu hàng tháng", C),
    HollandQuestion(52, "Chuẩn bị ngân sách cho chuyến đi chơi tập thể lớp", C),
    HollandQuestion(53, "Lập kế hoạch cho kỳ nghỉ hè/Tết", C),
    HollandQuestion(54, "Đếm và sắp xếp tiền", C),
    HollandQuestion(55, "Sắp xếp lại bàn học, tủ quần áo, nhà cửa", C),
    HollandQuestion(56, "Viết kế hoạch học tập cho học kỳ mới", C),
    HollandQuestion(57, "Hoàn tất bài tập theo đúng hạn được giao", C),
    HollandQuestion(58, "Dò lỗi chính tả cho phụ đề của một phim yêu thích", C),
    HollandQuestion(59, "Làm thủ quỹ của lớp", C),
    HollandQuestion(60, "Giúp ba mẹ quản lí tiền chợ của gia đình (mua gì, khi nào, mua bao nhiêu)", C)
  ]

  /** `hollandQuestions`: the six groups of ten, in the order the source lists them. */
  const HollandQuestions: seq<HollandQuestion> :=
    RealisticQuestions + SocialQuestions + InvestigativeQuestions +
    ArtisticQuestions + EnterprisingQuestions + ConventionalQuestions

  /** `hollandTypeDescriptions`. */
  const HollandTypeDescriptions: map<Cat, TypeDescription> := map[
    R := TypeDescription("Realistic (Kỹ thuật, thực tế)", "Thích làm việc với máy móc, dụng cụ, công việc thực tế", "education-blue"),
    I := TypeDescription("Investigative (Nghiên cứu, phân tích)", "Thích tìm hiểu, phân tích, nghiên cứu khoa học", "education-purple"),
    A := TypeDescription("Artistic (Sáng tạo, nghệ thuật)", "Thích sáng tạo, nghệ thuật, thể hiện bản thân", "education-pink"),
    S := TypeDescription("Social (Xã hội, hỗ trợ)", "Thích giúp đỡ, chăm sóc, làm việc với con người", "education-green"),
    E := TypeDescription("Enterprising (Quản lý, kinh doanh)", "Thích lãnh đạo, thuyết phục, kinh doanh", "education-orange"),
    C := TypeDescription("Conventional (Nguyên tắc, tổ chức)", "Thích công việc có quy định, tổ chức, quản lý dữ liệu", "education-red")
  ]

  // ---------------------------------------------------------------------------
  // Facts about the catalog

  /** The category the question table gives to question `id`, by its ranges of ten. */
  function CatOfId(id: int): (c: Cat)
    requires 1 <= id <= 60
  {
    if id <= 10 then R else if id <= 20 then S else if id <= 30 then I
    else if id <= 40 then A else if id <= 50 then E else C
  }

  /** `qs` is ten questions with ids `first`, `first + 1`, ... all of category `c`. */
  predicate TenOf(qs: seq<HollandQuestion>, first: int, c: Cat)
  {
    |qs| == 10 && forall k :: 0 <= k < 10 ==> qs[k].id == first + k && qs[k].typ == c
  }

  lemma RealisticTen() ensures TenOf(RealisticQuestions, 1, R) { }
  lemma SocialTen() ensures TenOf(SocialQuestions, 11, S) { }
  lemma InvestigativeTen() ensures TenOf(InvestigativeQuestions, 21, I) { }
  lemma ArtisticTen() ensures TenOf(ArtisticQuestions, 31, A) { }
  lemma EnterprisingTen() ensures TenOf(EnterprisingQuestions, 41, E) { }
  lemma ConventionalTen() ensures TenOf(ConventionalQuestions, 51, C) { }

  lemma {:induction false} GroupsAreTens()
    ensures TenOf(RealisticQuestions, 1, R) && TenOf(SocialQuestions, 11, S)
    ensures TenOf(InvestigativeQuestions, 21, I) && TenOf(ArtisticQuestions, 31, A)
    ensures TenOf(EnterprisingQuestions, 41, E) && TenOf(ConventionalQuestions, 51, C)
  {
    RealisticTen();
    SocialTen();
    InvestigativeTen();
    ArtisticTen();
    EnterprisingTen();
    ConventionalTen();
  }

  /** There are sixty questions; question `k` has id `k + 1`, and the ids run in ranges of ten per category. */
  lemma {:induction false} QuestionTable()
    ensures |HollandQuestions| == 60
    ensures forall k :: 0 <= k < 60 ==>
      HollandQuestions[k].id == k + 1 && HollandQuestions[k].typ == CatOfId(k + 1)
  {
    GroupsAreTens();
    var q := HollandQuestions;
    forall k | 0 <= k < 60
      ensures q[k].id == k + 1 && q[k].typ == CatOfId(k + 1)
    {
      if k < 10 { assert q[k] == RealisticQuestions[k]; }
      else if k < 20 { assert q[k] == SocialQuestions[k - 10]; }
      else if k < 30 { assert q[k] == InvestigativeQuestions[k - 20]; }
      else if k < 40 { assert q[k] == ArtisticQuestions[k - 30]; }
      else if k < 50 { assert q[k] == EnterprisingQuestions[k - 40]; }
      else { assert q[k] == ConventionalQuestions[k - 50]; }
    }
  }

  /** The question ids are 1..60, each once. */
  lemma {:induction false} QuestionIdsUnique()
    ensures forall k :: 0 <= k < |HollandQuestions| ==> 1 <= HollandQuestions[k].id <= 60
    ensures forall j, k :: 0 <= j < k < |HollandQuestions| ==> HollandQuestions[j].id != HollandQuestions[k].id
  {
    QuestionTable();
  }

  /** `hollandQuestions.find(q => q.id === id)`. */
  function FindQuestion(id: int): Option<HollandQuestion>
  {
    QuestionIn(HollandQuestions, id)
  }

  /** `qs.find(q => q.id === id)`. */
  function QuestionIn(qs: seq<HollandQuestion>, id: int): Option<HollandQuestion>
  {
    Find(qs, (q: HollandQuestion) => q.id == id)
  }

  /** Exactly the ids 1..60 are found, each to its question, of the category of its range. */
  lemma {:induction false} FindQuestionById(id: int)
    ensures FindQuestion(id).Some? <==> 1 <= id <= 60
    ensures FindQuestion(id).Some? ==>
      FindQuestion(id).value == HollandQuestions[id - 1] && FindQuestion(id).value.typ == CatOfId(id)
  {
    QuestionTable();
    var r := FindQuestion(id);
    if 1 <= id <= 60 {
      assert HollandQuestions[id - 1].id == id;
    }
    if r.Some? {
      var k :| 0 <= k < |HollandQuestions| && HollandQuestions[k] == r.value;
    }
  }

  /** A question table that finds exactly the ids 1..60, in ranges of ten per category. */
  ghost predicate NumberedByTens(qs: seq<HollandQuestion>)
  {
    forall id :: (QuestionIn(qs, id).Some? <==> 1 <= id <= 60) &&
      (QuestionIn(qs, id).Some? ==> QuestionIn(qs, id).value.typ == CatOfId(id))
  }

  lemma {:induction false} CatalogNumberedByTens()
    ensures NumberedByTens(HollandQuestions)
  {
    forall id
      ensures (QuestionIn(HollandQuestions, id).Some? <==> 1 <= id <= 60) &&
        (QuestionIn(HollandQuestions, id).Some? ==> QuestionIn(HollandQuestions, id).value.typ == CatOfId(id))
    {
      FindQuestionById(id);
    }
  }

  /** The questions of one category. */
  function OfCat(qs: seq<HollandQuestion>, c: Cat): seq<HollandQuestion>
  {
    Filter(qs, (q: HollandQuestion) => q.typ == c)
  }

  lemma {:induction false} OfCatTen(qs: seq<HollandQuestion>, first: int, c: Cat, d: Cat)
    requires TenOf(qs, first, c)
    ensures OfCat(qs, d) == if c == d then qs else []
  {
    if c == d {
      FilterAll(qs, (q: HollandQuestion) => q.typ == d);
    } else {
      FilterNone(qs, (q: HollandQuestion) => q.typ == d);
    }
  }

  /** The group of ten that holds the questions of a category. */
  function GroupOf(c: Cat): seq<HollandQuestion>
  {
    match c
    case R => RealisticQuestions
    case S => SocialQuestions
    case I => InvestigativeQuestions
    case A => ArtisticQuestions
    case E => EnterprisingQuestions
    case C => ConventionalQuestions
  }

  lemma {:induction false} OfCatConcat(g1: seq<HollandQuestion>, g2: seq<HollandQuestion>, g3: seq<HollandQuestion>,
                                       g4: seq<HollandQuestion>, g5: seq<HollandQuestion>, g6: seq<HollandQuestion>, c: Cat)
    ensures OfCat(g1 + g2 + g3 + g4 + g5 + g6, c) ==
      OfCat(g1, c) + OfCat(g2, c) + OfCat(g3, c) + OfCat(g4, c) + OfCat(g5, c) + OfCat(g6, c)
  {
    var p := (q: HollandQuestion) => q.typ == c;
    FilterConcat(g1 + g2 + g3 + g4 + g5, g6, p);
    FilterConcat(g1 + g2 + g3 + g4, g5, p);
    FilterConcat(g1 + g2 + g3, g4, p);
    FilterConcat(g1 + g2, g3, p);
    FilterConcat(g1, g2, p);
  }

  /** Of six groups, the one of category `c`. */
  function Pick(g1: seq<HollandQuestion>, g2: seq<HollandQuestion>, g3: seq<HollandQuestion>,
                g4: seq<HollandQuestion>, g5: seq<HollandQuestion>, g6: seq<HollandQuestion>, c: Cat): seq<HollandQuestion>
  {
    match c
    case R => g1
    case S => g2
    case I => g3
    case A => g4
    case E => g5
    case C => g6
  }

  lemma {:induction false} OfCatSix(g1: seq<HollandQuestion>, g2: seq<HollandQuestion>, g3: seq<HollandQuestion>,
                                    g4: seq<HollandQuestion>, g5: seq<HollandQuestion>, g6: seq<HollandQuestion>, c: Cat)
    requires TenOf(g1, 1, R) && TenOf(g2, 11, S) && TenOf(g3, 21, I)
    requires TenOf(g4, 31, A) && TenOf(g5, 41, E) && TenOf(g6, 51, C)
    ensures OfCat(g1 + g2 + g3 + g4 + g5 + g6, c) == Pick(g1, g2, g3, g4, g5, g6, c)
  {
    OfCatConcat(g1, g2, g3, g4, g5, g6, c);
    OfCatTen(g1, 1, R, c);
    OfCatTen(g2, 11, S, c);
    OfCatTen(g3, 21, I, c);
    OfCatTen(g4, 31, A, c);
    OfCatTen(g5, 41, E, c);
    OfCatTen(g6, 51, C, c);
  }

  /** The questions of a category are the ten of its group, so there are exactly ten of each. */
  lemma {:induction false} TenPerCategory(c: Cat)
    ensures OfCat(HollandQuestions, c) == GroupOf(c)
    ensures |OfCat(HollandQuestions, c)| == 10
  {
    GroupsAreTens();
    OfCatSix(RealisticQuestions, SocialQuestions, InvestigativeQuestions,
             ArtisticQuestions, EnterprisingQuestions, ConventionalQuestions, c);
  }

  lemma {:induction false} NamingBlockExactly(catalog: seq<Major>, id: string, m: Major)
    ensures m in NamingBlock(catalog, id) <==> m in catalog && id in m.examBlocks
    ensures Subsequence(NamingBlock(catalog, id), catalog)
  {
    FilterMembers(catalog, (m: Major) => id in m.examBlocks, m);
    FilterSubsequence(catalog, (m: Major) => id in m.examBlocks);
  }

  /** A block's majors are exactly the catalog majors naming the block, in catalog order. */
  lemma {:induction false} BlockMajorsExactly(b: TestBlock, m: Major)
    ensures m in b.Majors() <==> m in MajorsData && b.id in m.examBlocks
    ensures Subsequence(b.Majors(), MajorsData)
  {
    NamingBlockExactly(MajorsData, b.id, m);
  }

  /** The blocks that some major names. */
  const NamedBlocks: seq<string> := ["A00", "A01", "B00", "C00", "D01", "D04", "H00", "H01", "V00"]

  lemma {:induction false} MajorsNameFewBlocks()
    ensures forall k, b :: 0 <= k < |MajorsData| && b in MajorsData[k].examBlocks ==> b in NamedBlocks
  {
  }

  lemma {:induction false} NamingNoBlock(catalog: seq<Major>, id: string)
    requires forall k :: 0 <= k < |catalog| ==> id !in catalog[k].examBlocks
    ensures NamingBlock(catalog, id) == []
  {
    FilterNone(catalog, (m: Major) => id in m.examBlocks);
  }

  /** A block no major names (C01, C03, R00 or V01, say) lists no majors. */
  lemma {:induction false} UnnamedBlockListsNothing(b: TestBlock)
    requires b.id !in NamedBlocks
    ensures b.Majors() == []
  {
    MajorsNameFewBlocks();
    NamingNoBlock(MajorsData, b.id);
  }

  /** Twelve of the twenty blocks are named by no major. */
  lemma {:induction false} UnnamedBlocks()
    ensures forall k :: 0 <= k < 20 ==> (TestBlocks[k].id !in NamedBlocks <==> k in {4, 5, 6, 7, 9, 10, 11, 12, 13, 14, 17, 19})
  {
  }

  /** `Khối <id> (<s1>, <s2>, ...)`: the shape of every block name. */
  function BlockName(id: string, subjects: seq<string>): string
  {
    "Khối " + id + " (" + Join(subjects, ", ") + ")"
  }

  /** BlockName renders block A00's name as the catalog writes it. */
  lemma {:induction false} FirstBlockName()
    ensures TestBlocks[0].name == "Khối A00 (Toán, Lý, Hóa)"
  {
    assert Join(["Toán", "Lý", "Hóa"], ", ") == "Toán, Lý, Hóa";
  }

  /** A subject fit for a block name: non-empty, with no comma and no parenthesis. */
  predicate PlainSubject(x: string)
  {
    x != "" && ',' !in x && '(' !in x && ')' !in x
  }

  /** Every row names three subjects under an id without a parenthesis. */
  lemma {:induction false} BlockRowsShape()
    ensures forall k :: 0 <= k < |BlockRows| ==> '(' !in BlockRows[k].0 && |BlockRows[k].1| == 3
  {
  }

  /** The thirteen subjects the block names use. */
  const SubjectNames: seq<string> := ["Toán", "Lý", "Hóa", "Anh", "Sinh", "Văn", "Sử", "Địa", "GDCD",
                                      "Năng khiếu Vẽ", "Hình họa", "Thanh nhạc 1", "Thanh nhạc 2"]

  /** Each of them is plain. */
  lemma {:induction false} SubjectNamesPlain()
    ensures forall i :: 0 <= i < |SubjectNames| ==> PlainSubject(SubjectNames[i])
  {
  }

  /** Every row lists only those subjects. */
  lemma {:induction false} BlockRowsUseSubjectNames()
    ensures forall k, j :: 0 <= k < |BlockRows| && 0 <= j < |BlockRows[k].1| ==> BlockRows[k].1[j] in SubjectNames
  {
  }

  /** Every subject a row lists is plain. */
  lemma {:induction false} BlockSubjectsPlain()
    ensures forall k, j :: 0 <= k < |BlockRows| && 0 <= j < |BlockRows[k].1| ==> PlainSubject(BlockRows[k].1[j])
  {
    SubjectNamesPlain();
    BlockRowsUseSubjectNames();
  }

  /** No two rows share an id. */
  lemma {:induction false} BlockIdsDistinct()
    ensures forall i, j :: 0 <= i < j < |BlockRows| ==> BlockRows[i].0 != BlockRows[j].0
  {
  }

  /** Major 27 lists no Holland type. */
  lemma {:induction false} MajorWithoutTypes()
    ensures MajorsData[26].id == 27 && MajorsData[26].hollandTypes == []
  {
  }

  /** Every type has a description. */
  lemma {:induction false} EveryTypeDescribed(c: Cat)
    ensures c in HollandTypeDescriptions
  {
  }
}
