/** The rows of the platform's tables. Timestamps are instants given as
    integers (milliseconds), amounts are whole numbers, and a column that may
    be null is an `Option`. A field that the source calls `type` is `kind`
    here, since `type` is a Dafny keyword. */
module Schema {
  import opened Wrappers

  datatype User = User(
    id: int, username: string, email: string, password: string,
    fullName: string, phoneNumber: Option<string>, role: string, createdAt: int)

  datatype Wallet = Wallet(id: int, userId: int, balance: int, currency: string)

  datatype Chama = Chama(
    id: int, name: string, description: Option<string>, founded: int, createdBy: int)

  datatype ChamaMember = ChamaMember(id: int, chamaId: int, userId: int, role: string, joinedAt: int)

  /** A member row joined with its user, as `getChamaMembers` returns it. */
  datatype MemberWithUser = MemberWithUser(member: ChamaMember, user: User)

  datatype Contribution = Contribution(
    id: int, chamaId: int, userId: int, amount: int, status: string,
    dueDate: int, paidAt: Option<int>)

  datatype Transaction = Transaction(
    id: int, userId: int, kind: string, amount: int, status: string,
    description: Option<string>, createdAt: int, relatedId: Option<int>)

  datatype Meeting = Meeting(
    id: int, chamaId: int, title: string, description: Option<string>,
    scheduledFor: int, location: Option<string>, createdBy: int)

  datatype Message = Message(
    id: int, senderId: int, recipientId: Option<int>, chamaId: Option<int>,
    content: string, sentAt: int, read: bool)

  datatype ChamaRule = ChamaRule(
    id: int, chamaId: int, contributionAmount: int, contributionFrequency: string,
    latePaymentFine: Option<int>, interestRate: Option<int>, createdAt: int, updatedAt: int)

  datatype Notification = Notification(
    id: int, userId: int, kind: string, title: string, content: string,
    read: bool, createdAt: int, relatedId: Option<int>)

  datatype Product = Product(
    id: int, sellerId: int, title: string, description: Option<string>, price: int,
    category: Option<string>, imageUrl: Option<string>, status: string, createdAt: int)

  datatype LearningProgress = LearningProgress(
    id: int, userId: int, moduleId: string, progress: int, completed: bool, lastAccessed: int)

  /** The fields of a `Partial<User>` that the routes send; an absent field
      keeps its value. `id` and `createdAt` are never patched here. */
  datatype UserPatch = UserPatch(
    username: Option<string>, email: Option<string>, password: Option<string>,
    fullName: Option<string>, phoneNumber: Option<Option<string>>, role: Option<string>)

  /** `{ ...user, ...patch }`. */
  function ApplyUserPatch(u: User, p: UserPatch): User {
    u.(username := p.username.GetOr(u.username),
       email := p.email.GetOr(u.email),
       password := p.password.GetOr(u.password),
       fullName := p.fullName.GetOr(u.fullName),
       phoneNumber := p.phoneNumber.GetOr(u.phoneNumber),
       role := p.role.GetOr(u.role))
  }

  /** The fields of a `Partial<ChamaRule>` that the routes send; `id`,
      `chamaId` and the timestamps are never patched here. */
  datatype RulePatch = RulePatch(
    contributionAmount: Option<int>, contributionFrequency: Option<string>,
    latePaymentFine: Option<Option<int>>, interestRate: Option<Option<int>>)

  /** `{ ...rules, ...patch, updatedAt: now }`. */
  function ApplyRulePatch(r: ChamaRule, p: RulePatch, now: int): ChamaRule {
    r.(contributionAmount := p.contributionAmount.GetOr(r.contributionAmount),
       contributionFrequency := p.contributionFrequency.GetOr(r.contributionFrequency),
       latePaymentFine := p.latePaymentFine.GetOr(r.latePaymentFine),
       interestRate := p.interestRate.GetOr(r.interestRate),
       updatedAt := now)
  }
}
