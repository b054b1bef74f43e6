/** The fixed sample dataset the seeder writes, built once from the time of construction. */
module SeedData {
  import opened Wrappers
  import opened Values

  const Minute: int := 60 * 1000
  const Hour: int := 60 * Minute
  const Day: int := 24 * Hour

  /** The records of each of the seven stores. */
  datatype SeedSet = SeedSet(
    users: seq<Value>,
    tasks: seq<Value>,
    customers: seq<Value>,
    projects: seq<Value>,
    notifications: seq<Value>,
    settings: seq<Value>,
    auditLogs: seq<Value>)

  function User(id: int, name: string, email: string, department: string, role: string, createdAt: int, lastLogin: int): Value
  {
    Object([
      Field("id", Num(id)), Field("name", Str(name)), Field("email", Str(email)),
      Field("department", Str(department)), Field("role", Str(role)), Field("avatar", Str("")),
      Field("status", Str("active")), Field("createdAt", Date(createdAt)), Field("lastLogin", Date(lastLogin))])
  }

  function Task(id: int, title: string, description: string, assigneeId: int, assigneeName: string,
                status: string, priority: string, dueDate: int, createdAt: int, updatedAt: int,
                projectId: int, tags: seq<string>): Value
  {
    Object([
      Field("id", Num(id)), Field("title", Str(title)), Field("description", Str(description)),
      Field("assigneeId", Num(assigneeId)), Field("assigneeName", Str(assigneeName)),
      Field("status", Str(status)), Field("priority", Str(priority)), Field("dueDate", Date(dueDate)),
      Field("createdAt", Date(createdAt)), Field("updatedAt", Date(updatedAt)),
      Field("projectId", Num(projectId)), Field("tags", Strings(tags))])
  }

  function Customer(id: int, name: string, email: string, phone: string, address: string, status: string,
                    kind: string, industry: string, revenue: int, createdAt: int, lastContact: int,
                    assignedTo: int, notes: string): Value
  {
    Object([
      Field("id", Num(id)), Field("name", Str(name)), Field("email", Str(email)), Field("phone", Str(phone)),
      Field("address", Str(address)), Field("status", Str(status)), Field("type", Str(kind)),
      Field("industry", Str(industry)), Field("revenue", Num(revenue)), Field("createdAt", Date(createdAt)),
      Field("lastContact", Date(lastContact)), Field("assignedTo", Num(assignedTo)), Field("notes", Str(notes))])
  }

  function Project(id: int, name: string, description: string, status: string, priority: string,
                   managerId: int, managerName: string, startDate: int, endDate: int, budget: int,
                   progress: int, teamMembers: seq<int>, createdAt: int, updatedAt: int): Value
  {
    Object([
      Field("id", Num(id)), Field("name", Str(name)), Field("description", Str(description)),
      Field("status", Str(status)), Field("priority", Str(priority)), Field("managerId", Num(managerId)),
      Field("managerName", Str(managerName)), Field("startDate", Date(startDate)), Field("endDate", Date(endDate)),
      Field("budget", Num(budget)), Field("progress", Num(progress)),
      Field("teamMembers", List(seq(|teamMembers|, i requires 0 <= i < |teamMembers| => Num(teamMembers[i])))),
      Field("createdAt", Date(createdAt)), Field("updatedAt", Date(updatedAt))])
  }

  function Notification(id: int, userId: int, title: string, content: string, kind: string, priority: string,
                        isRead: bool, timestamp: int, actionUrl: string): Value
  {
    Object([
      Field("id", Num(id)), Field("userId", Num(userId)), Field("title", Str(title)), Field("content", Str(content)),
      Field("type", Str(kind)), Field("priority", Str(priority)), Field("isRead", Bool(isRead)),
      Field("timestamp", Date(timestamp)), Field("actionUrl", Str(actionUrl))])
  }

  function Setting(key: string, value: Value, category: string, description: string, updatedAt: int): Value
  {
    Object([
      Field("key", Str(key)), Field("value", value), Field("category", Str(category)),
      Field("description", Str(description)), Field("updatedAt", Date(updatedAt))])
  }

  function AuditLog(id: int, userId: int, userName: string, action: string, resource: string, resourceId: Value,
                    details: string, timestamp: int, ipAddress: string, userAgent: string): Value
  {
    Object([
      Field("id", Num(id)), Field("userId", Num(userId)), Field("userName", Str(userName)),
      Field("action", Str(action)), Field("resource", Str(resource)), Field("resourceId", resourceId),
      Field("details", Str(details)), Field("timestamp", Date(timestamp)), Field("ipAddress", Str(ipAddress)),
      Field("userAgent", Str(userAgent))])
  }

  function Strings(ss: seq<string>): Value
  {
    List(seq(|ss|, i requires 0 <= i < |ss| => Str(ss[i])))
  }

  /** `generateSeedData()` with `now` the construction time in milliseconds. */
  function SeedDataAt(now: int): SeedSet
  {
    SeedSet(SeedUsers(now), SeedTasks(now), SeedCustomers(now), SeedProjects(now),
            SeedNotifications(now), SeedSettings(now), SeedAuditLogs(now))
  }

  function SeedUsers(now: int): seq<Value>
  {
    var oneMonthAgo := now - 30 * Day;
    [ User(1, "张经理", "zhang.manager@company.com", "销售部", "manager", oneMonthAgo, now),
      User(2, "李总监", "li.director@company.com", "技术部", "director", oneMonthAgo, now - 2 * Hour),
      User(3, "王设计师", "wang.designer@company.com", "设计部", "designer", oneMonthAgo, now - 30 * Minute),
      User(4, "陈开发", "chen.developer@company.com", "技术部", "developer", oneMonthAgo, now - 1 * Hour),
      User(5, "赵产品", "zhao.product@company.com", "产品部", "product_manager", oneMonthAgo, now - 15 * Minute) ]
  }

  function SeedTasks(now: int): seq<Value>
  {
    var oneWeekAgo := now - 7 * Day;
    [ Task(1, "完成用户界面设计", "设计新版本的用户界面，包括主页、列表页和详情页", 3, "王设计师",
           "in_progress", "high", now + 3 * Day, oneWeekAgo, now - 2 * Hour, 1, ["设计", "UI", "用户体验"]),
      Task(2, "API接口开发", "开发用户管理相关的API接口", 4, "陈开发",
           "completed", "medium", now + 1 * Day, oneWeekAgo, now - 1 * Day, 1, ["开发", "API", "后端"]),
      Task(3, "客户需求调研", "收集和分析客户对新功能的需求", 5, "赵产品",
           "pending", "high", now + 5 * Day, now - 2 * Day, now - 2 * Day, 2, ["调研", "需求", "客户"]),
      Task(4, "系统性能优化", "优化系统响应速度和数据库查询性能", 2, "李总监",
           "in_progress", "medium", now + 7 * Day, now - 3 * Day, now - 1 * Hour, 1, ["优化", "性能", "技术"]) ]
  }

  function SeedCustomers(now: int): seq<Value>
  {
    var oneMonthAgo := now - 30 * Day;
    [ Customer(1, "北京科技有限公司", "contact@beijing-tech.com", "010-12345678", "北京市朝阳区科技园区",
               "active", "enterprise", "科技", 5000000, oneMonthAgo, now - 3 * Day, 1, "重要客户，年度合作伙伴"),
      Customer(2, "上海制造集团", "info@shanghai-mfg.com", "021-87654321", "上海市浦东新区工业园",
               "potential", "enterprise", "制造业", 8000000, now - 14 * Day, now - 1 * Day, 1, "正在洽谈中，有很大合作潜力"),
      Customer(3, "深圳创新公司", "hello@shenzhen-innovation.com", "0755-11223344", "深圳市南山区高新园",
               "active", "startup", "互联网", 2000000, now - 21 * Day, now - 2 * Day, 1, "年轻团队，发展迅速") ]
  }

  function SeedProjects(now: int): seq<Value>
  {
    var oneMonthAgo := now - 30 * Day;
    [ Project(1, "企业管理系统升级", "升级现有的企业管理系统，增加新功能和优化用户体验", "active", "high",
              2, "李总监", oneMonthAgo, now + 60 * Day, 500000, 65, [2, 3, 4, 5], oneMonthAgo, now - 1 * Hour),
      Project(2, "客户关系管理系统", "开发新的客户关系管理系统，提升销售效率", "planning", "medium",
              1, "张经理", now + 7 * Day, now + 90 * Day, 300000, 10, [1, 5], now - 7 * Day, now - 7 * Day) ]
  }

  function SeedNotifications(now: int): seq<Value>
  {
    [ Notification(1, 3, "新任务分配", "您被分配了新任务：完成用户界面设计", "task", "medium", false,
                   now - 2 * Hour, "/tasks/1"),
      Notification(2, 4, "任务即将到期", "任务 'API接口开发' 将在明天到期", "reminder", "high", true,
                   now - 4 * Hour, "/tasks/2"),
      Notification(3, 1, "客户联系提醒", "需要联系客户：北京科技有限公司", "customer", "medium", false,
                   now - 6 * Hour, "/customers/1") ]
  }

  function SeedSettings(now: int): seq<Value>
  {
    var oneWeekAgo := now - 7 * Day;
    [ Setting("theme", Str("light"), "appearance", "系统主题设置", oneWeekAgo),
      Setting("language", Str("zh-CN"), "localization", "系统语言设置", oneWeekAgo),
      Setting("notifications_enabled", Bool(true), "notifications", "是否启用通知", oneWeekAgo),
      Setting("auto_save_interval", Num(30), "system", "自动保存间隔（秒）", oneWeekAgo),
      Setting("items_per_page", Num(20), "display", "每页显示项目数", oneWeekAgo) ]
  }

  function SeedAuditLogs(now: int): seq<Value>
  {
    [ AuditLog(1, 1, "张经理", "create", "customer", Str("3"), "创建新客户：深圳创新公司", now - 21 * Day,
               "192.168.1.100", "Mozilla/5.0 (Windows NT 10.0; Win64; x64) AppleWebKit/537.36"),
      AuditLog(2, 3, "王设计师", "update", "task", Str("1"), "更新任务状态为进行中", now - 2 * Hour,
               "192.168.1.101", "Mozilla/5.0 (Macintosh; Intel Mac OS X 10_15_7) AppleWebKit/537.36"),
      AuditLog(3, 4, "陈开发", "complete", "task", Str("2"), "完成任务：API接口开发", now - 1 * Day,
               "192.168.1.102", "Mozilla/5.0 (X11; Linux x86_64) AppleWebKit/537.36"),
      AuditLog(4, 2, "李总监", "login", "system", Null, "用户登录系统", now - 2 * Hour,
               "192.168.1.103", "Mozilla/5.0 (Windows NT 10.0; Win64; x64) AppleWebKit/537.36") ]
  }

  // ---------------------------------------------------------------- facts about the sample

  /** A task's `status` property is the status it was built with. */
  lemma TaskStatus(t: Value, id: int, title: string, description: string, assigneeId: int, assigneeName: string,
                   status: string, priority: string, dueDate: int, createdAt: int, updatedAt: int,
                   projectId: int, tags: seq<string>)
    requires t == Task(id, title, description, assigneeId, assigneeName, status, priority, dueDate, createdAt,
                       updatedAt, projectId, tags)
    ensures Get(t, "status") == Some(Str(status))
  {
    LookupFirst(t.fields, "status", 5);
  }

  /** The statuses of the four sample tasks: in progress, completed, pending, in progress. */
  lemma SampleTaskStatuses(now: int)
    ensures |SeedTasks(now)| == 4
    ensures Get(SeedTasks(now)[0], "status") == Some(Str("in_progress"))
    ensures Get(SeedTasks(now)[1], "status") == Some(Str("completed"))
    ensures Get(SeedTasks(now)[1], "id") == Some(Num(2))
    ensures Get(SeedTasks(now)[2], "status") == Some(Str("pending"))
    ensures Get(SeedTasks(now)[3], "status") == Some(Str("in_progress"))
  {
    var ts, oneWeekAgo := SeedTasks(now), now - 7 * Day;
    TaskStatus(ts[0], 1, "完成用户界面设计", "设计新版本的用户界面，包括主页、列表页和详情页", 3, "王设计师",
               "in_progress", "high", now + 3 * Day, oneWeekAgo, now - 2 * Hour, 1, ["设计", "UI", "用户体验"]);
    TaskStatus(ts[1], 2, "API接口开发", "开发用户管理相关的API接口", 4, "陈开发",
               "completed", "medium", now + 1 * Day, oneWeekAgo, now - 1 * Day, 1, ["开发", "API", "后端"]);
    TaskStatus(ts[2], 3, "客户需求调研", "收集和分析客户对新功能的需求", 5, "赵产品",
               "pending", "high", now + 5 * Day, now - 2 * Day, now - 2 * Day, 2, ["调研", "需求", "客户"]);
    TaskStatus(ts[3], 4, "系统性能优化", "优化系统响应速度和数据库查询性能", 2, "李总监",
               "in_progress", "medium", now + 7 * Day, now - 3 * Day, now - 1 * Hour, 1, ["优化", "性能", "技术"]);
  }

  /** `n` records carrying the ids 1 to `n` in turn. */
  ghost predicate NumberedFrom1(rows: seq<Value>, n: nat)
  {
    |rows| == n && forall j :: 0 <= j < |rows| ==> Get(rows[j], "id") == Some(Num(j + 1))
  }

  lemma UsersNumbered(now: int)
    ensures NumberedFrom1(SeedUsers(now), 5)
  {
  }

  lemma TasksNumbered(now: int)
    ensures NumberedFrom1(SeedTasks(now), 4)
  {
  }

  lemma CustomersNumbered(now: int)
    ensures NumberedFrom1(SeedCustomers(now), 3)
  {
  }

  lemma ProjectsNumbered(now: int)
    ensures NumberedFrom1(SeedProjects(now), 2)
  {
  }

  lemma NotificationsNumbered(now: int)
    ensures NumberedFrom1(SeedNotifications(now), 3)
  {
  }

  lemma AuditLogsNumbered(now: int)
    ensures NumberedFrom1(SeedAuditLogs(now), 4)
  {
  }
}
