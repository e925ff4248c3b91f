/**
 * The content data model and the constant article library (src/data/mockData.ts).
 */
module MockData {
  import opened Wrappers

  /** One unit of narration: prose, or a code block with its spoken label and summary. */
  datatype Segment =
    | Text(content: string)
    | Code(lang: string, raw: string, summary: string, spokenLabel: string)

  /** An article; `createTime` is only present on articles that come from the server. */
  datatype Article = Article(
    id: int,
    title: string,
    author: string,
    duration: string,
    category: string,
    segments: seq<Segment>,
    createTime: Option<string>)

  /**
   * The fourteen built-in articles, in the source's order.  Each segment keeps
   * its kind, and a code segment its language and spoken label; the prose of
   * the text segments, the code bodies and the summaries are left empty.
   */
  const MockLibrary: seq<Article> := [
    Article(1, "React Hooks 深度性能优化指南", "Dan A.", "12:40", "Frontend", [
      Text(""),
      Text(""),
      Code("javascript", "", "", "JavaScript 代码块：父组件中的函数引用问题示例"),
      Text(""),
      Code("javascript", "", "", "JavaScript 代码块：使用 useCallback 的正确实现"),
      Text("")
    ], None),
    Article(2, "Rust 所有权机制图解", "Steve K.", "18:20", "System", [
      Text(""),
      Text(""),
      Code("rust", "", "", "Rust 代码块：所有权移动示例"),
      Text(""),
      Text(""),
      Code("rust", "", "", "Rust 代码块：借用示例"),
      Text("")
    ], None),
    Article(3, "微服务架构中的分布式事务", "Sam N.", "24:15", "Architecture", [
      Text(""),
      Text(""),
      Text(""),
      Code("yaml", "", "", "YAML 配置：Saga 事务编排"),
      Text(""),
      Text("")
    ], None),
    Article(4, "Kubernetes Pod 生命周期管理", "Brendan B.", "15:05", "DevOps", [
      Text(""),
      Text(""),
      Code("yaml", "", "", "YAML 配置：Pod 定义和健康检查"),
      Text(""),
      Text("")
    ], None),
    Article(5, "TypeScript 高级类型系统实战", "Ryan F.", "22:30", "Frontend", [
      Text(""),
      Text(""),
      Code("typescript", "", "", "TypeScript 代码块：条件类型示例"),
      Text(""),
      Code("typescript", "", "", "TypeScript 代码块：映射类型示例"),
      Text("")
    ], None),
    Article(6, "Docker 容器网络深度解析", "Alex M.", "19:45", "DevOps", [
      Text(""),
      Text(""),
      Code("bash", "", "", "Bash 命令：Docker 网络创建和使用"),
      Text(""),
      Text("")
    ], None),
    Article(7, "GraphQL API 设计最佳实践", "Lee B.", "16:20", "Architecture", [
      Text(""),
      Text(""),
      Code("graphql", "", "", "GraphQL Schema：类型定义示例"),
      Text(""),
      Text("")
    ], None),
    Article(8, "Vue 3 Composition API 核心原理", "Evan Y.", "14:50", "Frontend", [
      Text(""),
      Text(""),
      Code("javascript", "", "", "JavaScript 代码块：Vue 3 Composition API 示例"),
      Text(""),
      Text("")
    ], None),
    Article(9, "Redis 缓存策略与性能优化", "Salvatore S.", "20:15", "System", [
      Text(""),
      Text(""),
      Code("python", "", "", "Python 代码块：Cache-Aside 模式实现"),
      Text(""),
      Text("")
    ], None),
    Article(10, "Webpack 5 模块联邦实战", "Tobias K.", "17:30", "Frontend", [
      Text(""),
      Text(""),
      Code("javascript", "", "", "JavaScript 配置：Webpack 模块联邦配置"),
      Text(""),
      Text("")
    ], None),
    Article(11, "PostgreSQL 查询优化技巧", "Bruce M.", "21:40", "System", [
      Text(""),
      Text(""),
      Code("sql", "", "", "SQL 语句：索引创建和查询分析"),
      Text(""),
      Text("")
    ], None),
    Article(12, "Node.js 事件循环机制详解", "Ryan D.", "18:55", "System", [
      Text(""),
      Text(""),
      Code("javascript", "", "", "JavaScript 代码块：事件循环执行顺序示例"),
      Text(""),
      Text("")
    ], None),
    Article(13, "MongoDB 聚合管道高级用法", "Eliot H.", "23:10", "System", [
      Text(""),
      Text(""),
      Code("javascript", "", "", "MongoDB 聚合：订单统计分析示例"),
      Text(""),
      Text("")
    ], None),
    Article(14, "Elasticsearch 全文搜索优化", "Shay B.", "19:25", "System", [
      Text(""),
      Text(""),
      Code("json", "", "", "JSON 配置：Elasticsearch 索引配置示例"),
      Text(""),
      Text("")
    ], None)
  ]

  /** Whether a segment list holds at least one code segment. */
  predicate HasCode(s: seq<Segment>)
  {
    |s| > 0 && (s[0].Code? || HasCode(s[1..]))
  }

  /** `HasCode` finds a code segment exactly when there is one. */
  lemma {:induction false} HasCodeExists(s: seq<Segment>)
    ensures HasCode(s) <==> exists k :: 0 <= k < |s| && s[k].Code?
  {
    if |s| > 0 {
      HasCodeExists(s[1..]);
      if !s[0].Code? && exists k :: 0 <= k < |s| && s[k].Code? {
        var k :| 0 <= k < |s| && s[k].Code?;
        assert s[1..][k - 1].Code?;
      }
      if HasCode(s[1..]) {
        var k :| 0 <= k < |s[1..]| && s[1..][k].Code?;
        assert s[k + 1].Code?;
      }
    }
  }

  /** The article shape the narration engine is tuned for. */
  predicate WellShaped(a: Article)
  {
    var s := a.segments;
    |s| >= 3 && s[0].Text? && s[1].Text? && s[|s| - 1].Text? && HasCode(s)
  }

  /** The categories the library uses. */
  predicate KnownCategory(c: string)
  {
    c == "Frontend" || c == "System" || c == "Architecture" || c == "DevOps"
  }

  /** The library holds fourteen articles numbered 1 to 14 in order. */
  lemma MockIds()
    ensures |MockLibrary| == 14
    ensures forall i :: 0 <= i < |MockLibrary| ==> MockLibrary[i].id == i + 1
  {
  }

  /** Hence ids are pairwise distinct, so an id identifies a library article. */
  lemma MockIdsDistinct()
    ensures forall i, j :: 0 <= i < |MockLibrary| && 0 <= j < |MockLibrary| && i != j ==>
      MockLibrary[i].id != MockLibrary[j].id
  {
    MockIds();
  }

  /** No library article carries a creation time. */
  lemma MockCreateTimes()
    ensures forall i :: 0 <= i < |MockLibrary| ==> MockLibrary[i].createTime == None
  {
  }

  /** The category of every library article is one of four. */
  lemma MockCategoriesKnown()
    ensures forall i :: 0 <= i < |MockLibrary| ==> KnownCategory(MockLibrary[i].category)
  {
  }

  /**
   * Every library article opens with two text segments, holds a code segment
   * and ends on a text segment.
   */
  lemma MockShapes()
    ensures forall i :: 0 <= i < |MockLibrary| ==> WellShaped(MockLibrary[i])
  {
    forall i | 0 <= i < |MockLibrary|
      ensures WellShaped(MockLibrary[i])
    {
      MockIds();
      var k := if i == 2 then 3 else 2;
      CodeAt(i, k);
    }
  }

  /** An article whose segment `k` is code and whose first two and last segments are text is well shaped. */
  lemma CodeAt(i: int, k: int)
    requires 0 <= i < |MockLibrary|
    requires 2 <= k < |MockLibrary[i].segments| && MockLibrary[i].segments[k].Code?
    requires var s := MockLibrary[i].segments; s[0].Text? && s[1].Text? && s[|s| - 1].Text?
    ensures WellShaped(MockLibrary[i])
  {
    HasCodeExists(MockLibrary[i].segments);
  }
}
