/** The session records of types/auth.ts. */
module AuthTypes {
  import opened Wrappers

  datatype UserRole = Admin | RegularUser

  /** The login provider; "google" is the only one. */
  datatype Provider = Google

  datatype User = User(
    id: int,
    email: string,
    displayName: string,
    avatarUrl: Option<string>,
    role: UserRole,
    provider: Provider,
    createdAt: string,
    updatedAt: string)

  /** What the session provider hands to every component that asks for it
      (the `login`, `logout` and `checkAuth` callbacks are the methods of
      `AuthContext.AuthProvider`). */
  datatype AuthContextValue = AuthContextValue(
    isAuthenticated: bool,
    isAdmin: bool,
    user: Option<User>,
    isLoading: bool,
    error: Option<string>)

  datatype LogoutResponse = LogoutResponse(success: bool, message: string)
}
