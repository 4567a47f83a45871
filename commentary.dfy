/**
 * The end-of-run commentary of src/services/geminiService.ts: a title and a comment drawn
 * from one of four fixed pools, chosen by the distance the run reached. The two
 * Math.random() draws are parameters in [0, 1).
 */
module Commentary {

  /** The four pools, from the shortest runs to the longest. */
  datatype Bracket = Panic | Chase | Skill | Legend
  {
    /** Position in the order of the distance thresholds. */
    function Rank(): nat
    {
      match this
      case Panic => 0
      case Chase => 1
      case Skill => 2
      case Legend => 3
    }
  }

  datatype Pool = Pool(titles: seq<string>, comments: seq<string>)

  /** What the service returns (interface GeminiAnalysis). */
  datatype Analysis = Analysis(title: string, comment: string)

  const PANIC: Pool := Pool(
    ["Vừa Chạy Đã Té", "Chó Vừa Sủa Là Xỉu", "Chạy Bằng Niềm Tin", "Mới Rượt Đã Thua", "Giật Mình Chạy Bừa"],
    ["Chó mới sủa cái là chân tự khựng lại.", "Chưa kịp hiểu chuyện thì đã bị đuổi.",
     "Chạy kiểu hoảng loạn, chó nhìn cũng ngán.", "Chân chưa nóng mà tim đã lên 200.",
     "Bài học đầu đời: thấy chó là chạy."])

  const CHASE: Pool := Pool(
    ["Bị Rượt Sấp Mặt", "Chạy Vì Tính Mạng", "Chó Theo Sát Gót", "Một Pha Thoát Chết", "Né Chó Bằng Bản Năng"],
    ["Chó sau lưng, gió trước mặt.", "Chạy không đẹp nhưng rất thật.", "Một pha né chó hú hồn.",
     "Chó rượt mà vẫn kịp né gai, cũng giỏi.", "Chân run nhưng não vẫn hoạt động."])

  const SKILL: Pool := Pool(
    ["Thánh Né Chó", "Runner Bị Rượt", "Chạy Như Bản Năng", "Chó Nhìn Cũng Nản", "Thoát Chết Trong Gang Tấc"],
    ["Chó đuổi mệt hơn cả bạn.", "Né gai mượt như chưa từng sợ.", "Chạy tới mức chó cũng thở hổn hển.",
     "Bản năng sinh tồn đã thức tỉnh.", "Chó đuổi, bạn lướt."])

  const LEGEND: Pool := Pool(
    ["Huyền Thoại Bị Chó Rượt", "Chó Đuổi Không Kịp", "Bóng Ma Đường Phố", "Thần Chạy Trốn",
     "Chạy Tới Mức Chó Bỏ Cuộc"],
    ["Chó đuổi từ sáng tới chiều vẫn chưa kịp cắn.", "Tốc độ này chó chỉ biết đứng nhìn.",
     "Đây không phải chạy, đây là sinh tồn.", "Chó đã bỏ cuộc, bạn vẫn chạy.",
     "Truyền thuyết nói rằng chó còn đang tìm bạn."])

  function PoolOf(b: Bracket): Pool
  {
    match b
    case Panic => PANIC
    case Chase => CHASE
    case Skill => SKILL
    case Legend => LEGEND
  }

  /** The pool choice: under 100, under 500, under 1000, and the rest. */
  function BracketOf(distance: real): Bracket
  {
    if distance < 100.0 then Panic
    else if distance < 500.0 then Chase
    else if distance < 1000.0 then Skill
    else Legend
  }

  /** randomFrom(arr): the entry at floor(roll * length). */
  function RandomIndex(n: nat, roll: real): (i: nat)
    requires n > 0 && 0.0 <= roll < 1.0
    ensures i < n
    ensures i as real <= roll * n as real < i as real + 1.0
  {
    var x := roll * n as real;
    DrawInRange(roll, n as real);
    FloorBelow(x, n);
    x.Floor
  }

  /** The floor of a real in [0, n) is a natural number below n. */
  lemma FloorBelow(x: real, n: nat)
    requires 0.0 <= x < n as real
    ensures 0 <= x.Floor < n
    ensures x.Floor as real <= x < x.Floor as real + 1.0
  {
  }

  function RandomFrom<T>(arr: seq<T>, roll: real): (r: T)
    requires |arr| > 0 && 0.0 <= roll < 1.0
    ensures r in arr
  {
    arr[RandomIndex(|arr|, roll)]
  }

  /** generateRunAnalysis(distance, coins): the coin count is accepted and never read. */
  function GenerateRunAnalysis(distance: real, coins: int, titleRoll: real, commentRoll: real): (a: Analysis)
    requires 0.0 <= titleRoll < 1.0 && 0.0 <= commentRoll < 1.0
    ensures a.title in PoolOf(BracketOf(distance)).titles
    ensures a.comment in PoolOf(BracketOf(distance)).comments
  {
    var pool := PoolOf(BracketOf(distance));
    Analysis(RandomFrom(pool.titles, titleRoll), RandomFrom(pool.comments, commentRoll))
  }

  // ---------------------------------------------------------------------------------------
  // Properties
  // ---------------------------------------------------------------------------------------

  /** Every pool holds five titles and five comments, so every draw is in range. */
  lemma PoolSizes(b: Bracket)
    ensures |PoolOf(b).titles| == 5 && |PoolOf(b).comments| == 5
  {
  }

  /** A longer run never lands in a lower pool. */
  lemma BracketIsMonotone(d1: real, d2: real)
    requires d1 <= d2
    ensures BracketOf(d1).Rank() <= BracketOf(d2).Rank()
  {
  }

  /** The thresholds, each as an if-and-only-if. */
  lemma BracketThresholds(d: real)
    ensures BracketOf(d) == Panic <==> d < 100.0
    ensures BracketOf(d) == Chase <==> 100.0 <= d < 500.0
    ensures BracketOf(d) == Skill <==> 500.0 <= d < 1000.0
    ensures BracketOf(d) == Legend <==> 1000.0 <= d
  {
  }

  /** The coin count has no influence on the commentary. */
  lemma CoinsAreIgnored(distance: real, c1: int, c2: int, titleRoll: real, commentRoll: real)
    requires 0.0 <= titleRoll < 1.0 && 0.0 <= commentRoll < 1.0
    ensures GenerateRunAnalysis(distance, c1, titleRoll, commentRoll)
         == GenerateRunAnalysis(distance, c2, titleRoll, commentRoll)
  {
  }

  /** A draw in [0, 1) scaled by n lies in [0, n). */
  lemma DrawInRange(roll: real, n: real)
    requires 0.0 <= roll < 1.0 && n > 0.0
    ensures 0.0 <= roll * n < n
  {
    ScaleBy(roll, 1.0, n);
  }

  lemma ScaleBy(a: real, b: real, n: real)
    requires n > 0.0
    ensures a <= b ==> a * n <= b * n
    ensures a < b ==> a * n < b * n
  {
  }

  /**
   * Each entry of a list of n gets an equal share of the draws: the draws in
   * [i / n, (i + 1) / n) pick entry i. So every title and comment of a pool can come up.
   */
  lemma RandomFromPicks<T>(arr: seq<T>, roll: real, i: nat)
    requires i < |arr|
    requires i as real / |arr| as real <= roll < (i + 1) as real / |arr| as real
    ensures 0.0 <= roll < 1.0
    ensures RandomFrom(arr, roll) == arr[i]
  {
    var n := |arr| as real;
    Share(i as real, roll, (i + 1) as real, n);
    var x := roll * n;
    var k := RandomIndex(|arr|, roll);
    SameUnit(x, i, k);
  }

  /** A draw between a / n and b / n, scaled by n, lies between a and b. */
  lemma Share(a: real, roll: real, b: real, n: real)
    requires n >= 1.0 && 0.0 <= a && b <= n
    requires a / n <= roll < b / n
    ensures a <= roll * n < b
    ensures 0.0 <= roll < 1.0
  {
    DivMul(a, n);
    DivMul(b, n);
    ScaleBy(a / n, roll, n);
    ScaleBy(roll, b / n, n);
    assert 0.0 <= a / n;
    assert b / n <= 1.0;
  }

  lemma DivMul(a: real, n: real)
    requires n > 0.0
    ensures (a / n) * n == a
  {
  }

  /** Two integers whose unit intervals both hold x are equal. */
  lemma SameUnit(x: real, i: int, k: int)
    requires i as real <= x < i as real + 1.0
    requires k as real <= x < k as real + 1.0
    ensures i == k
  {
    assert k as real < i as real + 1.0 && i as real < k as real + 1.0;
  }

  /** No entry of `a` is an entry of `b`. */
  predicate Disjoint(a: seq<string>, b: seq<string>)
  {
    forall i, j :: 0 <= i < |a| && 0 <= j < |b| ==> a[i] != b[j]
  }

  /** The pools share no title and no comment. */
  lemma PoolsAreDisjoint(b1: Bracket, b2: Bracket)
    requires b1 != b2
    ensures Disjoint(PoolOf(b1).titles, PoolOf(b2).titles)
    ensures Disjoint(PoolOf(b1).comments, PoolOf(b2).comments)
  {
    TitlesAreDisjoint(b1, b2);
    CommentsAreDisjoint(b1, b2);
  }

  lemma TitlesAreDisjoint(b1: Bracket, b2: Bracket)
    requires b1 != b2
    ensures Disjoint(PoolOf(b1).titles, PoolOf(b2).titles)
  {
    match (b1, b2)
    case (Panic, Chase) => {}
    case (Panic, Skill) => {}
    case (Panic, Legend) => {}
    case (Chase, Panic) => {}
    case (Chase, Skill) => {}
    case (Chase, Legend) => {}
    case (Skill, Panic) => {}
    case (Skill, Chase) => {}
    case (Skill, Legend) => {}
    case (Legend, Panic) => {}
    case (Legend, Chase) => {}
    case (Legend, Skill) => {}
  }

  lemma CommentsAreDisjoint(b1: Bracket, b2: Bracket)
    requires b1 != b2
    ensures Disjoint(PoolOf(b1).comments, PoolOf(b2).comments)
  {
    match (b1, b2)
    case (Panic, Chase) => {}
    case (Panic, Skill) => {}
    case (Panic, Legend) => {}
    case (Chase, Panic) => {}
    case (Chase, Skill) => {}
    case (Chase, Legend) => {}
    case (Skill, Panic) => {}
    case (Skill, Chase) => {}
    case (Skill, Legend) => {}
    case (Legend, Panic) => {}
    case (Legend, Chase) => {}
    case (Legend, Skill) => {}
  }

  /**
   * The commentary tells which distance bracket the run reached: its title (and likewise its
   * comment) belongs to the pool of bracket b exactly when the run's distance falls in b.
   */
  lemma CommentaryRevealsBracket(distance: real, coins: int, titleRoll: real, commentRoll: real, b: Bracket)
    requires 0.0 <= titleRoll < 1.0 && 0.0 <= commentRoll < 1.0
    ensures var a := GenerateRunAnalysis(distance, coins, titleRoll, commentRoll);
      && (a.title in PoolOf(b).titles <==> BracketOf(distance) == b)
      && (a.comment in PoolOf(b).comments <==> BracketOf(distance) == b)
  {
    if BracketOf(distance) != b {
      PoolsAreDisjoint(BracketOf(distance), b);
    }
  }

  /** Sample distances at and around each threshold: 50 is panic, 300 a chase, 700 skill, 1500 a legend. */
  lemma BracketExamples()
    ensures BracketOf(50.0) == Panic && BracketOf(300.0) == Chase
    ensures BracketOf(700.0) == Skill && BracketOf(1500.0) == Legend
    ensures BracketOf(99.0) == Panic && BracketOf(100.0) == Chase && BracketOf(1000.0) == Legend
  {
  }
}
