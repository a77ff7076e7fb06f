includes = ["**/*.dfy"]

[options]
resource-limit = "8000000"
verification-time-limit = 0
